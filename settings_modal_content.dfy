/** `SettingsModalContent`: a dark-mode switch over the same stored
    `"theme"` value as `useTheme`, but with two values only. */
module Settings {
  import opened Common
  import opened Browser
  import ThemeHook

  /** The switch starts on exactly when `"dark"` is stored. */
  function InitialDarkMode(storage: map<string, string>): (darkMode: bool)
    ensures darkMode <==> ThemeHook.InitialTheme(storage) == ThemeHook.Dark
  {
    GetItem(storage, ThemeKey) == Some("dark")
  }

  /** Storage after the effect: `"dark"` or `"light"` is always stored, so the
      key is never left absent; every other key is kept. */
  function StoreDarkMode(storage: map<string, string>, darkMode: bool): (r: map<string, string>)
    ensures GetItem(r, ThemeKey) == Some(if darkMode then "dark" else "light")
    ensures forall k :: k != ThemeKey ==> GetItem(r, k) == GetItem(storage, k)
  {
    storage[ThemeKey := if darkMode then "dark" else "light"]
  }

  /** `classList.toggle("dark", darkMode)`: `dark` is on exactly when the
      switch is; no other class changes. */
  function ToggleDark(classes: set<string>, darkMode: bool): (r: set<string>)
    ensures DarkClass in r <==> darkMode
    ensures r - {DarkClass} == classes - {DarkClass}
  {
    if darkMode then classes + {DarkClass} else classes - {DarkClass}
  }

  /** Reading back what the effect stored gives the same switch position. */
  lemma DarkModeRoundTrip(storage: map<string, string>, darkMode: bool)
    ensures InitialDarkMode(StoreDarkMode(storage, darkMode)) == darkMode
  {
  }

  /** The switch writes what `useTheme` writes for the matching explicit
      choice, whatever the operating system prefers. */
  lemma SwitchAgreesWithHook(storage: map<string, string>, classes: set<string>, darkMode: bool, prefersDark: bool)
    ensures var theme := if darkMode then ThemeHook.Dark else ThemeHook.Light;
      StoreDarkMode(storage, darkMode) == ThemeHook.StoreTheme(storage, theme)
      && ToggleDark(classes, darkMode) == ThemeHook.ThemeClasses(classes, theme, prefersDark)
  {
  }

  /** Mounting the settings runs the effect with the initial switch position,
      which turns any stored value other than `"dark"`, and no value, into
      `"light"`: afterwards `useTheme` reads `Light` where it read `System`. */
  lemma MountPinsExplicitTheme(storage: map<string, string>)
    ensures var after := StoreDarkMode(storage, InitialDarkMode(storage));
      ThemeHook.InitialTheme(after)
        == (if ThemeHook.InitialTheme(storage) == ThemeHook.Dark then ThemeHook.Dark else ThemeHook.Light)
    ensures GetItem(storage, ThemeKey) == None ==>
      ThemeHook.InitialTheme(storage) == ThemeHook.System
      && ThemeHook.InitialTheme(StoreDarkMode(storage, InitialDarkMode(storage))) == ThemeHook.Light
  {
  }

  class SettingsModalContent {
    var darkMode: bool

    constructor (page: Page)
      ensures darkMode == InitialDarkMode(page.localStorage)
    {
      darkMode := GetItem(page.localStorage, ThemeKey) == Some("dark");
    }

    /** The switch's `onChange`. */
    method SetDarkMode(darkMode: bool)
      modifies this
      ensures this.darkMode == darkMode
    {
      this.darkMode := darkMode;
    }

    /** The effect that runs after each change of `darkMode`. */
    method Effect(page: Page)
      modifies page
      ensures page.localStorage == StoreDarkMode(old(page.localStorage), darkMode)
      ensures page.classList == ToggleDark(old(page.classList), darkMode)
    {
      page.localStorage := page.localStorage[ThemeKey := if darkMode then "dark" else "light"];
      if darkMode {
        page.classList := page.classList + {DarkClass};
      } else {
        page.classList := page.classList - {DarkClass};
      }
    }
  }
}
