/** The light/dark theme switch (static/js/theme-manager.js): the theme read
    from storage, the toggle, the button icon and the system colour-scheme
    listener. `localStorage['theme']` is a field. */
module Theme {
  import opened Common

  const SunIcon: string := "fas fa-sun"
  const MoonIcon: string := "fas fa-moon"

  /** `localStorage.getItem('theme') || 'light'`: a missing or empty stored
      value gives `light`. */
  function InitialTheme(stored: Option<string>): (theme: string)
    ensures stored.None? || stored.value == "" ==> theme == "light"
    ensures stored.Some? && stored.value != "" ==> theme == stored.value
    ensures theme != ""
  {
    if stored.Some? && stored.value != "" then stored.value else "light"
  }

  /** `toggleTheme`'s choice: `light` becomes `dark`, anything else `light`. */
  function Toggled(theme: string): (next: string)
    ensures theme == "light" ==> next == "dark"
    ensures theme != "light" ==> next == "light"
  {
    if theme == "light" then "dark" else "light"
  }

  /** Toggling twice from `light` or `dark` gives the theme back; from any
      other stored value it gives `dark`. */
  lemma ToggleTwice(theme: string)
    ensures theme in {"light", "dark"} ==> Toggled(Toggled(theme)) == theme
    ensures theme !in {"light", "dark"} ==> Toggled(Toggled(theme)) == "dark"
  {
  }

  /** `updateThemeIcon`: the sun while dark, the moon otherwise. */
  function IconFor(theme: string): (icon: string)
    ensures icon == SunIcon <==> theme == "dark"
    ensures icon == MoonIcon <==> theme != "dark"
  {
    if theme == "dark" then SunIcon else MoonIcon
  }

  /** A toggle always flips the icon between sun and moon. */
  lemma ToggleFlipsIcon(theme: string)
    requires theme in {"light", "dark"}
    ensures IconFor(Toggled(theme)) != IconFor(theme)
  {
  }

  class ThemeManager {
    var theme: string
    /** `localStorage.getItem('theme')`. */
    var stored: Option<string>
    /** The `data-theme` attribute of the document element. */
    var dataTheme: string
    /** The class of the toggle button's icon, when the button exists. */
    var icon: Option<string>
    const hasButton: bool
    /** Whether `window.matchMedia` exists, so that the listener is bound. */
    const hasMatchMedia: bool

    /** The page shows the current theme (`applyTheme`). */
    ghost predicate Valid()
      reads this
    {
      dataTheme == theme && icon == (if hasButton then Some(IconFor(theme)) else None)
    }

    constructor (stored: Option<string>, hasButton: bool, hasMatchMedia: bool)
      ensures Valid()
      ensures theme == InitialTheme(stored) && this.stored == stored
      ensures this.hasButton == hasButton && this.hasMatchMedia == hasMatchMedia
    {
      theme := InitialTheme(stored);
      this.stored := stored;
      this.hasButton := hasButton;
      this.hasMatchMedia := hasMatchMedia;
      dataTheme := "";
      icon := None;
      new;
      ApplyTheme();
    }

    /** `applyTheme` with `updateThemeIcon`. */
    method ApplyTheme()
      modifies this`dataTheme, this`icon
      ensures Valid()
    {
      dataTheme := theme;
      if hasButton {
        icon := Some(IconFor(theme));
      } else {
        icon := None;
      }
    }

    /** `toggleTheme`: the next theme is shown and stored. */
    method ToggleTheme()
      modifies this`theme, this`stored, this`dataTheme, this`icon
      ensures Valid()
      ensures theme == Toggled(old(theme)) && stored == Some(theme)
    {
      theme := Toggled(theme);
      stored := Some(theme);
      ApplyTheme();
    }

    /** The colour-scheme listener: follows the system only while no theme is
        stored (a missing or empty entry); a stored theme wins. */
    method OnColorSchemeChange(prefersDark: bool)
      requires Valid()
      modifies this`theme, this`dataTheme, this`icon
      ensures Valid()
      ensures hasMatchMedia && (stored.None? || stored.value == "") ==>
                theme == (if prefersDark then "dark" else "light")
      ensures !(hasMatchMedia && (stored.None? || stored.value == "")) ==> theme == old(theme)
    {
      if !hasMatchMedia {
        return;
      }
      if stored.None? || stored.value == "" {
        theme := if prefersDark then "dark" else "light";
        ApplyTheme();
      }
    }
  }
}
