/** The theme store of ThemeContext.tsx: a module-level table of five themes that
    the provider's toggles and `setCursorStyle` mutate in place, and a current-index
    state cell that `cycleTheme` advances modulo the table length. */
module ThemeContext {
  import opened Wrappers
  import Hex

  /** The cursor descriptor a theme carries (ThemeContext's own `CursorStyle` type). */
  datatype CursorStyle = CursorStyle(name: string, color: string, particleCount: real, particleSize: real, speed: real)

  /** The eight colour roles; the datatype makes the palette total. */
  datatype ThemeColors = ThemeColors(
    primary: string, secondary: string, accent: string, accentLight: string,
    background: string, surface: string, text: string, glow: string)

  datatype Theme = Theme(name: string, colors: ThemeColors, cursorStyle: CursorStyle, isDark: bool, isCyberpunk: bool)

  const ThemeCount: nat := 5

  /** The `themes` table as the module defines it. */
  function InitialThemes(): (ts: seq<Theme>)
    ensures |ts| == ThemeCount
  {
    [ Theme("Neon Pink",
        ThemeColors("#ff0080", "#7928ca", "#00ffff", "#80ffff", "#0a0a0a", "#1a1a1a", "#ffffff", "#ff008080"),
        CursorStyle("hex", "#ff0080", 50.0, 2.0, 2.0), true, true),
      Theme("Matrix Green",
        ThemeColors("#00ff00", "#008000", "#80ff80", "#c0ffc0", "#001a00", "#002600", "#00ff00", "#00ff0080"),
        CursorStyle("matrix", "#00ff00", 100.0, 1.0, 3.0), true, true),
      Theme("Quantum Blue",
        ThemeColors("#00ffff", "#0080ff", "#80ffff", "#c0ffff", "#001a1a", "#002626", "#ffffff", "#00ffff80"),
        CursorStyle("quantum", "#00ffff", 75.0, 1.5, 2.5), true, true),
      Theme("Cyber Gold",
        ThemeColors("#ffd700", "#ff8c00", "#ffe680", "#fff2b3", "#1a1a00", "#262600", "#ffffff", "#ffd70080"),
        CursorStyle("neural", "#ffd700", 60.0, 2.0, 1.5), true, true),
      Theme("Plasma Purple",
        ThemeColors("#b14aed", "#7928ca", "#d894ff", "#e6b3ff", "#1a001a", "#260026", "#ffffff", "#b14aed80"),
        CursorStyle("cyber", "#b14aed", 80.0, 1.8, 2.0), true, true) ]
  }

  /** Every theme's `primary` and `accent` are '#' and six hex digits, which the
      slice-based colour parsers of the canvas effects rely on. */
  lemma {:induction false} InitialColorsWellFormed(k: nat)
    requires k < ThemeCount
    ensures Hex.WellFormedColor(InitialThemes()[k].colors.primary)
    ensures Hex.WellFormedColor(InitialThemes()[k].colors.accent)
  {
    var ts := InitialThemes();
    if k == 0 {
      Hex.SixDigitColor(ts[0].colors.primary);
      Hex.SixDigitColor(ts[0].colors.accent);
    } else if k == 1 {
      Hex.SixDigitColor(ts[1].colors.primary);
      Hex.SixDigitColor(ts[1].colors.accent);
    } else if k == 2 {
      Hex.SixDigitColor(ts[2].colors.primary);
      Hex.SixDigitColor(ts[2].colors.accent);
    } else if k == 3 {
      Hex.SixDigitColor(ts[3].colors.primary);
      Hex.SixDigitColor(ts[3].colors.accent);
    } else {
      Hex.SixDigitColor(ts[4].colors.primary);
      Hex.SixDigitColor(ts[4].colors.accent);
    }
  }

  /** What `cycleTheme` does to the index: the next theme, wrapping after the last. */
  function NextIndex(i: nat): (j: nat)
    requires i < ThemeCount
    ensures j < ThemeCount
    ensures j == 0 <==> i == ThemeCount - 1
  {
    (i + 1) % ThemeCount
  }

  /** The index after `n` calls of `cycleTheme`. */
  function CycleN(i: nat, n: nat): (j: nat)
    requires i < ThemeCount
    ensures j < ThemeCount
    decreases n
  {
    if n == 0 then i else CycleN(NextIndex(i), n - 1)
  }

  /** Cycling is modular: `n` cycles move the index by `n` modulo the table length. */
  lemma {:induction false} CycleNIsModular(i: nat, n: nat)
    requires i < ThemeCount
    ensures CycleN(i, n) == (i + n) % ThemeCount
    decreases n
  {
    if n > 0 {
      CycleNIsModular(NextIndex(i), n - 1);
    }
  }

  /** Cycling once per theme brings back the theme one started with. */
  lemma CycleAroundIsIdentity(i: nat)
    requires i < ThemeCount
    ensures CycleN(i, ThemeCount) == i
  {
    CycleNIsModular(i, ThemeCount);
  }

  /** The table after `setCursorStyle(style)` at index `i`. */
  function WithCursorStyle(ts: seq<Theme>, i: nat, style: CursorStyle): (r: seq<Theme>)
    requires i < |ts|
    ensures |r| == |ts| && r[i].cursorStyle == style
    ensures r[i] == ts[i].(cursorStyle := style)
    ensures forall k :: 0 <= k < |ts| && k != i ==> r[k] == ts[k]
  {
    ts[i := ts[i].(cursorStyle := style)]
  }

  /** The table after `toggleTheme` at index `i`. */
  function WithDarkToggled(ts: seq<Theme>, i: nat): (r: seq<Theme>)
    requires i < |ts|
    ensures |r| == |ts| && r[i].isDark == !ts[i].isDark
    ensures r[i] == ts[i].(isDark := !ts[i].isDark)
    ensures forall k :: 0 <= k < |ts| && k != i ==> r[k] == ts[k]
  {
    ts[i := ts[i].(isDark := !ts[i].isDark)]
  }

  /** The table after `toggleCyberpunk` at index `i`. */
  function WithCyberpunkToggled(ts: seq<Theme>, i: nat): (r: seq<Theme>)
    requires i < |ts|
    ensures |r| == |ts| && r[i].isCyberpunk == !ts[i].isCyberpunk
    ensures r[i] == ts[i].(isCyberpunk := !ts[i].isCyberpunk)
    ensures forall k :: 0 <= k < |ts| && k != i ==> r[k] == ts[k]
  {
    ts[i := ts[i].(isCyberpunk := !ts[i].isCyberpunk)]
  }

  /** Toggling the same flag twice restores the table. */
  lemma ToggleTwiceIsIdentity(ts: seq<Theme>, i: nat)
    requires i < |ts|
    ensures WithDarkToggled(WithDarkToggled(ts, i), i) == ts
    ensures WithCyberpunkToggled(WithCyberpunkToggled(ts, i), i) == ts
  {
  }

  /** The two toggles touch different fields, so their order does not matter. */
  lemma TogglesCommute(ts: seq<Theme>, i: nat, j: nat)
    requires i < |ts| && j < |ts|
    ensures WithCyberpunkToggled(WithDarkToggled(ts, i), j) == WithDarkToggled(WithCyberpunkToggled(ts, j), i)
  {
  }

  /** What every reachable table keeps: the names and palettes of the table as
      defined (only cursor styles and flags are mutated). */
  ghost predicate KeepsPalette(ts: seq<Theme>, defined: seq<Theme>)
  {
    |ts| == |defined| == ThemeCount &&
    forall k :: 0 <= k < ThemeCount ==> ts[k].name == defined[k].name && ts[k].colors == defined[k].colors
  }

  /** Every primary and accent colour of a table is '#' and six hex digits. */
  ghost predicate ParseablePalette(ts: seq<Theme>)
  {
    forall k :: 0 <= k < |ts| ==>
      Hex.WellFormedColor(ts[k].colors.primary) && Hex.WellFormedColor(ts[k].colors.accent)
  }

  lemma InitialPaletteParseable()
    ensures ParseablePalette(InitialThemes())
  {
    forall k | 0 <= k < ThemeCount
      ensures Hex.WellFormedColor(InitialThemes()[k].colors.primary) && Hex.WellFormedColor(InitialThemes()[k].colors.accent)
    {
      InitialColorsWellFormed(k);
    }
  }

  /** The value the provider puts into the context. */
  datatype ContextValue = ContextValue(theme: Theme, colors: ThemeColors, cursorStyle: CursorStyle, isDark: bool, isCyberpunk: bool)

  /** Allocates the module-level `themes` table. */
  method NewThemeTable() returns (table: array<Theme>)
    ensures fresh(table) && table[..] == InitialThemes()
  {
    var ts := InitialThemes();
    table := new Theme[ThemeCount](k requires 0 <= k < ThemeCount => ts[k]);
    assert table[..] == ts;
  }

  /** `ThemeProvider`: the `currentThemeIndex` state cell over the shared table. */
  class ThemeProvider {
    const themes: array<Theme>
    var currentThemeIndex: nat
    /** The table as the module defines it, before any toggle. */
    ghost const defined: seq<Theme>

    ghost predicate Valid()
      reads this, themes
    {
      themes.Length == ThemeCount && currentThemeIndex < ThemeCount
      && KeepsPalette(themes[..], defined) && ParseablePalette(defined)
    }

    /** Mounting a provider over the freshly defined table: the index starts at 0. */
    constructor (table: array<Theme>)
      requires table[..] == InitialThemes()
      ensures Valid() && themes == table && currentThemeIndex == 0 && defined == InitialThemes()
    {
      themes := table;
      currentThemeIndex := 0;
      defined := table[..];
      new;
      InitialPaletteParseable();
    }

    /** The context value consumers see: the fields of `themes[currentThemeIndex]`,
        whose palette is always the defined one and therefore parseable. */
    function Value(): (v: ContextValue)
      requires Valid()
      reads this, themes
      ensures v.theme == themes[currentThemeIndex]
      ensures v.colors == defined[currentThemeIndex].colors
      ensures v.cursorStyle == v.theme.cursorStyle && v.isDark == v.theme.isDark && v.isCyberpunk == v.theme.isCyberpunk
      ensures Hex.WellFormedColor(v.colors.primary) && Hex.WellFormedColor(v.colors.accent)
    {
      var t := themes[currentThemeIndex];
      ContextValue(t, t.colors, t.cursorStyle, t.isDark, t.isCyberpunk)
    }

    method CycleTheme()
      requires Valid()
      modifies this`currentThemeIndex
      ensures Valid()
      ensures currentThemeIndex == NextIndex(old(currentThemeIndex))
      ensures themes[..] == old(themes[..])
    {
      currentThemeIndex := (currentThemeIndex + 1) % ThemeCount;
    }

    method SetCursorStyle(style: CursorStyle)
      requires Valid()
      modifies themes
      ensures Valid() && currentThemeIndex == old(currentThemeIndex)
      ensures themes[..] == WithCursorStyle(old(themes[..]), currentThemeIndex, style)
    {
      themes[currentThemeIndex] := themes[currentThemeIndex].(cursorStyle := style);
    }

    method ToggleTheme()
      requires Valid()
      modifies themes
      ensures Valid() && currentThemeIndex == old(currentThemeIndex)
      ensures themes[..] == WithDarkToggled(old(themes[..]), currentThemeIndex)
    {
      themes[currentThemeIndex] := themes[currentThemeIndex].(isDark := !themes[currentThemeIndex].isDark);
    }

    method ToggleCyberpunk()
      requires Valid()
      modifies themes
      ensures Valid() && currentThemeIndex == old(currentThemeIndex)
      ensures themes[..] == WithCyberpunkToggled(old(themes[..]), currentThemeIndex)
    {
      themes[currentThemeIndex] := themes[currentThemeIndex].(isCyberpunk := !themes[currentThemeIndex].isCyberpunk);
    }
  }

  /** `useTheme`: the provider's value, or the error thrown outside a provider. */
  function UseTheme(provided: Option<ContextValue>): (r: Result<ContextValue>)
    ensures r.Err? <==> provided.None?
    ensures provided.Some? ==> r == Ok(provided.value)
  {
    match provided
    case None => Err("useTheme must be used within a ThemeProvider")
    case Some(v) => Ok(v)
  }

  /** A change made to a theme survives cycling through all five themes back to
      it, because the toggles write into the shared table in place: `toggleTheme`
      followed by five calls of `cycleTheme`. */
  method PersistenceScenario(provider: ThemeProvider) returns (darkBefore: bool, darkAfter: bool)
    requires provider.Valid()
    modifies provider, provider.themes
    ensures provider.Valid() && provider.currentThemeIndex == old(provider.currentThemeIndex)
    ensures provider.themes[..] == WithDarkToggled(old(provider.themes[..]), old(provider.currentThemeIndex))
    ensures darkBefore == old(provider.Value().isDark) && darkAfter == provider.Value().isDark
    ensures darkAfter == !darkBefore
  {
    var start := provider.currentThemeIndex;
    darkBefore := provider.Value().isDark;
    provider.ToggleTheme();
    provider.CycleTheme();
    provider.CycleTheme();
    provider.CycleTheme();
    provider.CycleTheme();
    provider.CycleTheme();
    CycleAroundIsIdentity(start);
    darkAfter := provider.Value().isDark;
  }
}
