/** The accessibility context: three preference flags with their setters, and
    the colour theme derived from high contrast and dark mode. */
module Accessibility {

  /** The colours and status-bar style every screen reads. */
  datatype Theme = Theme(
    background: string,
    text: string,
    textSecondary: string,
    primary: string,
    cardBackground: string,
    inputBackground: string,
    border: string,
    headerBackground: string,
    statusBarStyle: string,
    highlight: string)

  /** The accessible palette: yellow on black. */
  const HighContrastTheme := Theme(
    background := "#000000", text := "#FFFF00", textSecondary := "#FFFF00", primary := "#FFD700",
    cardBackground := "#000000", inputBackground := "#000000", border := "#FFFF00",
    headerBackground := "#000000", statusBarStyle := "light", highlight := "#FFFF00")

  /** The theme for a pair of flags: high contrast forces the accessible
      palette whatever dark mode says. */
  function ThemeFor(highContrast: bool, isDarkMode: bool): (t: Theme)
    ensures highContrast ==> t == HighContrastTheme
    ensures (t.statusBarStyle == "light") <==> (highContrast || isDarkMode)
    ensures t.statusBarStyle == "light" || t.statusBarStyle == "dark"
    ensures (t.highlight == t.primary) <==> !highContrast
    ensures t.text != t.background
  {
    Theme(
      background := if highContrast then "#000000" else if isDarkMode then "#121212" else "#FFFFFF",
      text := if highContrast then "#FFFF00" else if isDarkMode then "#FFFFFF" else "#333333",
      textSecondary := if highContrast then "#FFFF00" else if isDarkMode then "#BBBBBB" else "#666666",
      primary := if highContrast then "#FFD700" else if isDarkMode then "#5c7cfa" else "#314697",
      cardBackground := if highContrast then "#000000" else if isDarkMode then "#1E1E1E" else "#F1F4FF",
      inputBackground := if highContrast then "#000000" else if isDarkMode then "#2C2C2C" else "#F1F4FF",
      border := if highContrast then "#FFFF00" else if isDarkMode then "#333333" else "#E0E0E0",
      headerBackground := if highContrast then "#000000" else if isDarkMode then "#1E1E1E" else "#FFFFFF",
      statusBarStyle := if highContrast || isDarkMode then "light" else "dark",
      highlight := if highContrast then "#FFFF00" else if isDarkMode then "#5c7cfa" else "#314697")
  }

  /** Under high contrast dark mode has no effect, and every text colour is
      yellow and every surface black. */
  lemma HighContrastOverridesDarkMode(isDarkMode: bool)
    ensures ThemeFor(true, isDarkMode) == ThemeFor(true, !isDarkMode)
    ensures var t := ThemeFor(true, isDarkMode);
            t.text == t.textSecondary == t.border == t.highlight == "#FFFF00"
            && t.background == t.cardBackground == t.inputBackground == t.headerBackground == "#000000"
  {
  }

  /** Without high contrast dark mode does change the theme: the background
      differs and the status bar turns light. */
  lemma DarkModeMatters()
    ensures ThemeFor(false, true).background != ThemeFor(false, false).background
    ensures ThemeFor(false, true).statusBarStyle == "light" && ThemeFor(false, false).statusBarStyle == "dark"
  {
  }

  /** The preference flags. */
  class AccessibilitySettings {
    var isDarkMode: bool
    var highContrast: bool
    var fontSizeLevel: real

    constructor ()
      ensures !isDarkMode && !highContrast && fontSizeLevel == 1.0
      ensures CurrentTheme() == ThemeFor(false, false)
    {
      isDarkMode := false;
      highContrast := false;
      fontSizeLevel := 1.0;
    }

    /** The `theme` the provider hands out, recomputed from the flags. */
    function CurrentTheme(): (t: Theme)
      reads this
      ensures highContrast ==> t == HighContrastTheme
      ensures (t.statusBarStyle == "light") <==> (highContrast || isDarkMode)
    {
      ThemeFor(highContrast, isDarkMode)
    }

    method SetIsDarkMode(value: bool)
      modifies this
      ensures isDarkMode == value && highContrast == old(highContrast) && fontSizeLevel == old(fontSizeLevel)
      ensures old(highContrast) ==> CurrentTheme() == old(CurrentTheme())
    {
      isDarkMode := value;
    }

    method SetHighContrast(value: bool)
      modifies this
      ensures highContrast == value && isDarkMode == old(isDarkMode) && fontSizeLevel == old(fontSizeLevel)
    {
      highContrast := value;
    }

    method SetFontSizeLevel(value: real)
      modifies this
      ensures fontSizeLevel == value && isDarkMode == old(isDarkMode) && highContrast == old(highContrast)
      ensures CurrentTheme() == old(CurrentTheme())
    {
      fontSizeLevel := value;
    }
  }
}
