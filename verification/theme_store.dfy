/** The theme store (src/stores/themeStore.ts): the chosen theme and the two
    flags the pages read, `isDarkMode` and `isDeepDarkMode`, plus whether
    the dashboard is active. The system colour-scheme preference, read
    through `matchMedia` at each use, is a parameter of the actions that
    read it. */
module ThemeStore {

  datatype Theme = Dark | Light | DeepDark | System

  /** The flags `setTheme(theme)` writes: deep dark only for the deep-dark
      theme; dark for the two dark themes, and for the system theme when
      the system prefers dark. */
  function IsDarkFor(theme: Theme, prefersDark: bool): bool {
    if theme == System then prefersDark else theme == Dark || theme == DeepDark
  }

  /** The theme `toggleTheme` moves to: dark and light swap; deep dark and
      system both go to deep dark. */
  function Toggled(theme: Theme): (r: Theme)
    ensures theme == Dark ==> r == Light
    ensures theme == Light ==> r == Dark
    ensures theme == DeepDark || theme == System ==> r == DeepDark
    ensures r != System
  {
    match theme
    case Dark => Light
    case Light => Dark
    case _ => DeepDark
  }

  /** Deep dark is the only fixed point of the toggle, and the toggle never
      leaves deep dark. */
  lemma ToggleFixedPoint(theme: Theme)
    ensures Toggled(theme) == theme <==> theme == DeepDark
    ensures Toggled(Toggled(theme)) == theme <==> theme != System
  {
  }

  class Store {
    var theme: Theme
    var isDarkMode: bool
    var isDeepDarkMode: bool
    var isDashboardActive: bool

    /** The flags agree with the theme: deep dark implies dark; an explicit
        theme fixes both flags; only under the system theme do they follow
        the system preference. */
    predicate Coherent()
      reads this
    {
      (isDeepDarkMode ==> isDarkMode)
      && (theme == Light ==> !isDarkMode && !isDeepDarkMode)
      && (theme == Dark ==> isDarkMode && !isDeepDarkMode)
      && (theme == DeepDark ==> isDarkMode && isDeepDarkMode)
    }

    /** The initial state: the system theme, with both flags set from the
        system preference (so a dark system starts in deep dark). */
    constructor(prefersDark: bool)
      ensures theme == System && isDarkMode == prefersDark && isDeepDarkMode == prefersDark
      ensures !isDashboardActive
      ensures Coherent()
    {
      theme := System;
      isDarkMode := prefersDark;
      isDeepDarkMode := prefersDark;
      isDashboardActive := false;
    }

    /** `toggleTheme`. */
    method ToggleTheme()
      modifies this
      ensures theme == Toggled(old(theme))
      ensures isDarkMode == (theme != Light) && isDeepDarkMode == (theme == DeepDark)
      ensures isDashboardActive == old(isDashboardActive)
      ensures Coherent()
    {
      if theme == Dark {
        theme, isDarkMode, isDeepDarkMode := Light, false, false;
      } else if theme == Light {
        theme, isDarkMode, isDeepDarkMode := Dark, true, false;
      } else {
        theme, isDarkMode, isDeepDarkMode := DeepDark, true, true;
      }
    }

    /** `setTheme(theme)`. */
    method SetTheme(theme: Theme, prefersDark: bool)
      modifies this
      ensures this.theme == theme
      ensures isDarkMode == IsDarkFor(theme, prefersDark)
      ensures isDeepDarkMode <==> theme == DeepDark
      ensures isDashboardActive == old(isDashboardActive)
      ensures Coherent()
    {
      var isDark := if theme == System then prefersDark else theme == Dark || theme == DeepDark;
      var isDeepDark := theme == DeepDark;
      this.theme, isDarkMode, isDeepDarkMode := theme, isDark, isDeepDark;
    }

    /** `updateThemeFromSystem`, also run by the colour-scheme listener:
        only under the system theme, where dark follows the preference and
        deep dark is switched off. */
    method UpdateThemeFromSystem(prefersDark: bool)
      modifies this
      requires Coherent()
      ensures old(theme) != System ==>
                theme == old(theme) && isDarkMode == old(isDarkMode) && isDeepDarkMode == old(isDeepDarkMode)
      ensures old(theme) == System ==> theme == System && isDarkMode == prefersDark && !isDeepDarkMode
      ensures isDashboardActive == old(isDashboardActive)
      ensures Coherent()
    {
      if theme == System {
        isDarkMode, isDeepDarkMode := prefersDark, false;
      }
    }

    /** `setDashboardActive(active)`. */
    method SetDashboardActive(active: bool)
      modifies this
      ensures isDashboardActive == active
      ensures theme == old(theme) && isDarkMode == old(isDarkMode) && isDeepDarkMode == old(isDeepDarkMode)
    {
      isDashboardActive := active;
    }
  }
}
