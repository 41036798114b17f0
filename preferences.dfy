/**
  Appearance preferences of the tic-tac-toe page: a dark or light theme and two
  colours picked from a seven-colour rainbow palette (one tints the board, one
  paints the marks). Each choice is written to the browser's key-value storage
  and read back on the next page load.
 */
module Preferences {

  /** Storage keys. */
  const ThemeKey: string := "ttt_theme"
  const BoardColorKey: string := "ttt_board_color"
  const MarkerColorKey: string := "ttt_marker_color"

  /** A palette entry: the translucent board tint and the solid marker colour. */
  datatype Swatch = Swatch(tint: string, marker: string)

  /** The rainbow palette, keyed by colour name. */
  const Rainbow: map<string, Swatch> := map[
    "red" := Swatch("rgba(239, 68, 68, 0.55)", "#ef4444"),
    "orange" := Swatch("rgba(249, 115, 22, 0.55)", "#f97316"),
    "yellow" := Swatch("rgba(234, 179, 8, 0.55)", "#eab308"),
    "green" := Swatch("rgba(34, 197, 94, 0.55)", "#22c55e"),
    "blue" := Swatch("rgba(59, 130, 246, 0.55)", "#3b82f6"),
    "indigo" := Swatch("rgba(99, 102, 241, 0.55)", "#6366f1"),
    "violet" := Swatch("rgba(168, 85, 247, 0.55)", "#a855f7")
  ]

  // ---------------------------------------------------------------- theme

  /** Any requested theme other than "light" is shown as "dark". */
  function NormalizeTheme(theme: string): (t: string)
    ensures t == "light" || t == "dark"
    ensures t == "light" <==> theme == "light"
  {
    if theme == "light" then "light" else "dark"
  }

  /** The caption naming a theme on the toggle button. */
  function ModeName(theme: string): string
  {
    if theme == "light" then "Light mode" else "Dark mode"
  }

  /**
    The theme a click on the toggle switches to, given the page's data-theme
    attribute ("" when the attribute is absent, which counts as dark).
   */
  function ToggledTheme(attr: string): (next: string)
    ensures next == "light" || next == "dark"
    ensures next != NormalizeTheme(attr)
  {
    var current := if attr == "" then "dark" else attr;
    if current == "light" then "dark" else "light"
  }

  /** The toggle button's caption while theme `t` is shown: it offers the other theme. */
  function ToggleLabel(t: string): (caption: string)
    ensures caption == ModeName(ToggledTheme(t))
    ensures caption == "Dark mode" <==> t == "light"
  {
    if NormalizeTheme(t) == "light" then "Dark mode" else "Light mode"
  }

  /** Two clicks on the toggle bring back the theme that was shown. */
  lemma ToggleTwice(attr: string)
    ensures ToggledTheme(ToggledTheme(attr)) == NormalizeTheme(attr)
  {
  }

  // -------------------------------------------------------------- storage

  /**
    A stored preference, or `default` when the key is missing or holds the
    empty string (both are falsy where the value is read).
   */
  function Load(store: map<string, string>, key: string, default: string): (v: string)
    ensures key in store && store[key] != "" ==> v == store[key]
    ensures key !in store || store[key] == "" ==> v == default
    ensures default != "" ==> v != ""
  {
    if key in store && store[key] != "" then store[key] else default
  }

  /** A non-empty value saved under a key is what the next load of that key returns. */
  lemma LoadAfterSave(store: map<string, string>, key: string, value: string, default: string)
    requires value != ""
    ensures Load(store[key := value], key, default) == value
  {
  }

  /** Saving one key leaves what every other key loads as it was. */
  lemma LoadOtherKey(store: map<string, string>, key: string, other: string, value: string, default: string)
    requires other != key
    ensures Load(store[key := value], other, default) == Load(store, other, default)
  {
  }

  /** A toggled theme is still shown after the page is reloaded. */
  lemma ThemeSurvivesReload(store: map<string, string>, attr: string)
    ensures NormalizeTheme(Load(store[ThemeKey := ToggledTheme(attr)], ThemeKey, "dark")) == ToggledTheme(attr)
  {
    LoadAfterSave(store, ThemeKey, ToggledTheme(attr), "dark");
  }

  // -------------------------------------------------------------- palette

  /**
    The swatch a colour name selects: the palette's own entry for that name,
    and blue for any other name, the empty one included.
   */
  function PaletteEntry(name: string): (sw: Swatch)
    ensures sw in Rainbow.Values
    ensures name in Rainbow ==> sw == Rainbow[name]
    ensures name !in Rainbow ==> sw == Rainbow["blue"]
  {
    if name in Rainbow then Rainbow[name] else Rainbow["blue"]
  }

  /** The seven swatches differ, so blue is shown exactly for "blue" and for unknown names. */
  lemma BlueIsFallback(name: string)
    ensures PaletteEntry(name) == Rainbow["blue"] <==> name == "blue" || name !in Rainbow
  {
  }

  /** A colour choice is still shown after the page is reloaded, whatever was chosen. */
  lemma {:induction false} ColorSurvivesReload(store: map<string, string>, key: string, value: string)
    ensures PaletteEntry(Load(store[key := value], key, "blue")) == PaletteEntry(value)
  {
    if value == "" {
      assert Load(store[key := value], key, "blue") == "blue";
      assert "" !in Rainbow;
    } else {
      LoadAfterSave(store, key, value, "blue");
    }
  }

  /**
    Names that every plain script object answers through its prototype even
    though the palette does not list them.
   */
  const InheritedNames: set<string> := {
    "constructor", "toString", "toLocaleString", "valueOf", "hasOwnProperty",
    "isPrototypeOf", "propertyIsEnumerable", "__proto__", "__defineGetter__",
    "__defineSetter__", "__lookupGetter__", "__lookupSetter__"
  }

  /**
    The lookup as the page writes it: a name the palette lacks but the object
    prototype answers yields a truthy value with no colours, so no fallback to
    blue happens and both colours become the text "undefined".
   */
  function PaletteEntryAsWritten(name: string): (sw: Swatch)
    ensures name in InheritedNames ==> sw == Swatch("undefined", "undefined")
    ensures name !in InheritedNames ==> sw == PaletteEntry(name)
  {
    if name in Rainbow then Rainbow[name]
    else if name in InheritedNames then Swatch("undefined", "undefined")
    else Rainbow["blue"]
  }

  /** A saved board colour "constructor" leaves the board without a tint instead of blue. */
  lemma AsWrittenLosesTint()
    ensures PaletteEntryAsWritten("constructor").tint == "undefined"
    ensures PaletteEntry("constructor") == Rainbow["blue"]
  {
    assert "constructor" in InheritedNames;
  }

  // ----------------------------------------------------------------- page

  /** The parts of the page that the preference code reads and writes. */
  class Page {
    /** The browser's key-value storage. */
    var store: map<string, string>
    /** The document's data-theme attribute; "" while it is absent. */
    var dataTheme: string
    /** Whether the page has a theme toggle button. */
    const hasToggleButton: bool
    /** The toggle button's caption and its aria-pressed state. */
    var toggleLabel: string
    var togglePressed: bool
    /** The --boardTint and --markerColor style properties. */
    var boardTint: string
    var markerColor: string

    /**
      The toggle button, if present, offers the theme a click switches to.
      Every method keeps it: the theme methods establish it, and the colour
      methods leave the theme and the button alone.
     */
    ghost predicate Synced()
      reads this
    {
      hasToggleButton && dataTheme != "" ==>
        toggleLabel == ModeName(ToggledTheme(dataTheme)) && togglePressed == (dataTheme == "light")
    }

    /** A freshly loaded page over saved storage, before any preference is applied. */
    constructor (saved: map<string, string>, toggleButton: bool)
      ensures store == saved && hasToggleButton == toggleButton
      ensures dataTheme == "" && toggleLabel == "" && !togglePressed
      ensures boardTint == "" && markerColor == ""
      ensures Synced()
    {
      store := saved;
      hasToggleButton := toggleButton;
      dataTheme := "";
      toggleLabel := "";
      togglePressed := false;
      boardTint := "";
      markerColor := "";
    }

    /** Show theme `theme` ("light", or dark for anything else) and caption the button. */
    method ApplyTheme(theme: string)
      modifies this
      ensures dataTheme == NormalizeTheme(theme)
      ensures hasToggleButton ==> toggleLabel == ToggleLabel(theme) && togglePressed == (theme == "light")
      ensures !hasToggleButton ==> toggleLabel == old(toggleLabel) && togglePressed == old(togglePressed)
      ensures store == old(store) && boardTint == old(boardTint) && markerColor == old(markerColor)
      ensures Synced()
    {
      var t := NormalizeTheme(theme);
      dataTheme := t;
      if hasToggleButton {
        var isLight := t == "light";
        toggleLabel := if isLight then "Dark mode" else "Light mode";
        togglePressed := isLight;
      }
    }

    /** On page load, show the saved theme, or dark when none is saved. */
    method InitTheme()
      modifies this
      ensures dataTheme == NormalizeTheme(Load(store, ThemeKey, "dark"))
      ensures hasToggleButton ==> toggleLabel == ToggleLabel(dataTheme) && togglePressed == (dataTheme == "light")
      ensures !hasToggleButton ==> toggleLabel == old(toggleLabel) && togglePressed == old(togglePressed)
      ensures store == old(store) && boardTint == old(boardTint) && markerColor == old(markerColor)
      ensures Synced()
    {
      var saved := Load(store, ThemeKey, "dark");
      ApplyTheme(saved);
    }

    /** Switch to the other theme and save it. */
    method ToggleTheme()
      modifies this
      ensures dataTheme == ToggledTheme(old(dataTheme)) && dataTheme != NormalizeTheme(old(dataTheme))
      ensures store == old(store)[ThemeKey := dataTheme]
      ensures hasToggleButton ==> toggleLabel == ToggleLabel(dataTheme) && togglePressed == (dataTheme == "light")
      ensures !hasToggleButton ==> toggleLabel == old(toggleLabel) && togglePressed == old(togglePressed)
      ensures boardTint == old(boardTint) && markerColor == old(markerColor)
      ensures Synced()
    {
      var next := ToggledTheme(dataTheme);
      store := store[ThemeKey := next];
      ApplyTheme(next);
    }

    /** Tint the board with the named colour, blue for an unknown name. */
    method ApplyBoardColor(name: string)
      modifies this
      ensures boardTint == PaletteEntry(name).tint
      ensures store == old(store) && markerColor == old(markerColor)
      ensures dataTheme == old(dataTheme) && toggleLabel == old(toggleLabel) && togglePressed == old(togglePressed)
      ensures old(Synced()) ==> Synced()
    {
      var c := PaletteEntry(name);
      boardTint := c.tint;
    }

    /** Paint the marks with the named colour, blue for an unknown name. */
    method ApplyMarkerColor(name: string)
      modifies this
      ensures markerColor == PaletteEntry(name).marker
      ensures store == old(store) && boardTint == old(boardTint)
      ensures dataTheme == old(dataTheme) && toggleLabel == old(toggleLabel) && togglePressed == old(togglePressed)
      ensures old(Synced()) ==> Synced()
    {
      var c := PaletteEntry(name);
      markerColor := c.marker;
    }

    /** On page load, apply the saved colours, blue for any colour not saved. */
    method InitColorPickers()
      modifies this
      ensures boardTint == PaletteEntry(Load(store, BoardColorKey, "blue")).tint
      ensures markerColor == PaletteEntry(Load(store, MarkerColorKey, "blue")).marker
      ensures store == old(store)
      ensures dataTheme == old(dataTheme) && toggleLabel == old(toggleLabel) && togglePressed == old(togglePressed)
      ensures old(Synced()) ==> Synced()
    {
      var savedBoard := Load(store, BoardColorKey, "blue");
      var savedMarker := Load(store, MarkerColorKey, "blue");
      ApplyBoardColor(savedBoard);
      ApplyMarkerColor(savedMarker);
    }

    /** The board colour picker changed to `value`: save it and apply it. */
    method OnBoardColorChange(value: string)
      modifies this
      ensures store == old(store)[BoardColorKey := value]
      ensures boardTint == PaletteEntry(value).tint && markerColor == old(markerColor)
      ensures dataTheme == old(dataTheme) && toggleLabel == old(toggleLabel) && togglePressed == old(togglePressed)
      ensures old(Synced()) ==> Synced()
    {
      store := store[BoardColorKey := value];
      ApplyBoardColor(value);
    }

    /** The marker colour picker changed to `value`: save it and apply it. */
    method OnMarkerColorChange(value: string)
      modifies this
      ensures store == old(store)[MarkerColorKey := value]
      ensures markerColor == PaletteEntry(value).marker && boardTint == old(boardTint)
      ensures dataTheme == old(dataTheme) && toggleLabel == old(toggleLabel) && togglePressed == old(togglePressed)
      ensures old(Synced()) ==> Synced()
    {
      store := store[MarkerColorKey := value];
      ApplyMarkerColor(value);
    }
  }
}
