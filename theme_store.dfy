/** The theme store: the chosen theme (light, dark or following the
    system) and the theme actually applied. The system preference is an
    input: whether a window exists and whether it prefers dark. */
module ThemeStore {
  import opened Wrappers

  datatype Theme = Light | Dark | System

  /** A theme as applied: never `System`. */
  type Applied = t: Theme | !t.System? witness Light

  /** The order `toggleTheme` cycles through. */
  const ThemeOrder: seq<Theme> := [Light, Dark, System]

  /** `themes.indexOf(theme)`. */
  function IndexOf(t: Theme): (i: nat)
    ensures i < |ThemeOrder| && ThemeOrder[i] == t
  {
    match t
    case Light => 0
    case Dark => 1
    case System => 2
  }

  /** The theme after the current one in `ThemeOrder`, wrapping round. */
  function NextTheme(t: Theme): (r: Theme)
    ensures r != t
    ensures IndexOf(r) == (IndexOf(t) + 1) % |ThemeOrder|
  {
    ThemeOrder[(IndexOf(t) + 1) % |ThemeOrder|]
  }

  /** Three toggles bring back the theme, and every theme is reached. */
  lemma NextThemeCycle(t: Theme)
    ensures NextTheme(NextTheme(NextTheme(t))) == t
    ensures {t, NextTheme(t), NextTheme(NextTheme(t))} == {Light, Dark, System}
  {
  }

  /** `getSystemTheme`: dark without a window, else what the window
      prefers. `prefersDark` is None when there is no window. */
  function SystemTheme(prefersDark: Option<bool>): (r: Applied)
    ensures prefersDark.None? ==> r == Dark
    ensures prefersDark.Some? ==> (r == Dark <==> prefersDark.value)
  {
    if prefersDark.None? then Dark
    else if prefersDark.value then Dark else Light
  }

  /** `resolveTheme`: the system preference for `System`, else the theme
      itself. */
  function ResolveTheme(t: Theme, prefersDark: Option<bool>): (r: Applied)
    ensures t != System ==> r == t
    ensures t == System ==> r == SystemTheme(prefersDark)
  {
    if t == System then SystemTheme(prefersDark) else t
  }

  /** `getThemeIcon`. */
  function ThemeIcon(t: Theme): (r: string)
    ensures t == Light <==> r == "sun"
    ensures t == Dark <==> r == "moon"
    ensures t == System <==> r == "monitor"
  {
    match t
    case Light => "sun"
    case Dark => "moon"
    case System => "monitor"
  }

  /** `getThemeLabel`. */
  function ThemeLabel(t: Theme): (r: string)
    ensures t == Light <==> r == "浅色模式"
    ensures t == Dark <==> r == "深色模式"
    ensures t == System <==> r == "跟随系统"
  {
    match t
    case Light => "浅色模式"
    case Dark => "深色模式"
    case System => "跟随系统"
  }

  class ThemeStore {
    var theme: Theme
    var actualTheme: Applied

    /** The initial state: following the system, light applied until the
        first initialisation. */
    constructor ()
      ensures theme == System && actualTheme == Light
    {
      theme := System;
      actualTheme := Light;
    }

    /** The applied theme agrees with the chosen one under the window's
        preference. */
    predicate Resolved(prefersDark: bool)
      reads this
    {
      actualTheme == ResolveTheme(theme, Some(prefersDark))
    }

    /** `initializeTheme`, with the window present and `prefersDark` what
        its media query reports. */
    method InitializeTheme(prefersDark: bool)
      modifies this
      ensures theme == old(theme)
      ensures actualTheme == ResolveTheme(theme, Some(prefersDark))
      ensures Resolved(prefersDark)
    {
      if theme == System {
        actualTheme := if prefersDark then Dark else Light;
      } else {
        actualTheme := theme;
      }
    }

    /** `setTheme`, then initialisation. */
    method SetTheme(t: Theme, prefersDark: bool)
      modifies this
      ensures theme == t && Resolved(prefersDark)
    {
      theme := t;
      InitializeTheme(prefersDark);
    }

    /** `toggleTheme`: the next theme in the cycle, then initialisation. */
    method ToggleTheme(prefersDark: bool)
      modifies this
      ensures theme == NextTheme(old(theme)) && Resolved(prefersDark)
    {
      theme := NextTheme(theme);
      InitializeTheme(prefersDark);
    }

    /** `selectIsSystemTheme`: the choice follows the system exactly when
        it is neither of the two themes that can be applied. */
    predicate IsSystemTheme()
      reads this
      ensures IsSystemTheme() <==> theme != Light && theme != Dark
    {
      theme == System
    }

    /** `selectIsDarkMode`: dark mode is what is applied, so it holds for
        exactly one of the two applied themes. */
    predicate IsDarkMode()
      reads this
      ensures IsDarkMode() <==> actualTheme != Light
    {
      actualTheme == Dark
    }

    /** Once resolved, the mode is dark exactly when dark was chosen, or
        the system was chosen and the window prefers dark. */
    lemma DarkModeWhenResolved(prefersDark: bool)
      requires Resolved(prefersDark)
      ensures IsDarkMode() <==> theme == Dark || (IsSystemTheme() && prefersDark)
    {
    }

    /** The persisted state, `version` 1 and no `partialize`: both the
        chosen and the applied theme are saved. */
    function Partialize(): (p: Persisted)
      reads this
      ensures p.theme == Some(theme) && p.actualTheme == Some(actualTheme)
    {
      Persisted(Some(theme), Some(actualTheme))
    }

    /** Rehydration: a saved object of this version has its fields
        replace the current ones; one of another version, which has no
        `migrate` to pass through, is not applied. */
    method Rehydrate(p: Persisted, version: int)
      modifies this
      ensures version == Version && p.theme.Some? ==> theme == p.theme.value
      ensures version == Version && p.actualTheme.Some? ==> actualTheme == p.actualTheme.value
      ensures version != Version || p.theme.None? ==> theme == old(theme)
      ensures version != Version || p.actualTheme.None? ==> actualTheme == old(actualTheme)
    {
      if version == Version {
        if p.theme.Some? {
          theme := p.theme.value;
        }
        if p.actualTheme.Some? {
          actualTheme := p.actualTheme.value;
        }
      }
    }
  }

  /** The persisted object; a missing field is None. */
  datatype Persisted = Persisted(theme: Option<Theme>, actualTheme: Option<Applied>)

  const Version := 1

  /** Saving and restoring carries both themes over. */
  method SaveAndRestore(store: ThemeStore, target: ThemeStore)
    modifies target
    ensures target.theme == store.theme && target.actualTheme == store.actualTheme
  {
    var saved := store.Partialize();
    target.Rehydrate(saved, Version);
  }
}
