/** `useTheme`: a three-way theme preference (light, dark, or follow the
    operating system) read from `localStorage` once, and written back, with
    the root element's `dark` class, whenever it changes. */
module ThemeHook {
  import opened Common
  import opened Browser

  datatype Theme = Light | Dark | System

  /** The preference a mount starts from: the stored value when it names a
      theme, and `System` for any other value and for no value. */
  function InitialTheme(storage: map<string, string>): (t: Theme)
    ensures t == Dark <==> GetItem(storage, ThemeKey) == Some("dark")
    ensures t == Light <==> GetItem(storage, ThemeKey) == Some("light")
  {
    if GetItem(storage, ThemeKey) == Some("dark") then Dark
    else if GetItem(storage, ThemeKey) == Some("light") then Light
    else System
  }

  /** Storage after the effect: `"dark"` or `"light"` stored for an explicit
      choice, the key removed for `System`; every other key is kept. */
  function StoreTheme(storage: map<string, string>, theme: Theme): (r: map<string, string>)
    ensures GetItem(r, ThemeKey) == match theme
      case Dark => Some("dark")
      case Light => Some("light")
      case System => None
    ensures forall k :: k != ThemeKey ==> GetItem(r, k) == GetItem(storage, k)
  {
    match theme
    case Dark => storage[ThemeKey := "dark"]
    case Light => storage[ThemeKey := "light"]
    case System => storage - {ThemeKey}
  }

  /** The class list after the effect: `dark` is on for the dark theme, and
      for `System` when the operating system prefers dark; no other class
      changes. */
  function ThemeClasses(classes: set<string>, theme: Theme, prefersDark: bool): (r: set<string>)
    ensures DarkClass in r <==> theme == Dark || (theme == System && prefersDark)
    ensures r - {DarkClass} == classes - {DarkClass}
  {
    match theme
    case Dark => classes + {DarkClass}
    case Light => classes - {DarkClass}
    case System => if prefersDark then classes + {DarkClass} else classes - {DarkClass}
  }

  /** Reading back what the effect stored gives the same preference, for all
      three values. */
  lemma ThemeRoundTrip(storage: map<string, string>, theme: Theme)
    ensures InitialTheme(StoreTheme(storage, theme)) == theme
  {
  }

  /** Running the effect a second time with the same theme and the same
      operating-system preference changes nothing. */
  lemma ThemeEffectIdempotent(storage: map<string, string>, classes: set<string>, theme: Theme, prefersDark: bool)
    ensures StoreTheme(StoreTheme(storage, theme), theme) == StoreTheme(storage, theme)
    ensures ThemeClasses(ThemeClasses(classes, theme, prefersDark), theme, prefersDark)
         == ThemeClasses(classes, theme, prefersDark)
  {
  }

  /** The hook's state. */
  class ThemeState {
    var theme: Theme

    constructor (page: Page)
      ensures theme == InitialTheme(page.localStorage)
    {
      var stored := GetItem(page.localStorage, ThemeKey);
      theme := if stored == Some("dark") then Dark
               else if stored == Some("light") then Light
               else System;
    }

    /** `setTheme`, as the hook hands it out. */
    method SetTheme(theme: Theme)
      modifies this
      ensures this.theme == theme
    {
      this.theme := theme;
    }

    /** The effect that runs after each change of `theme`; `prefersDark` is
        the answer to the `(prefers-color-scheme: dark)` media query. */
    method Effect(page: Page, prefersDark: bool)
      modifies page
      ensures page.localStorage == StoreTheme(old(page.localStorage), theme)
      ensures page.classList == ThemeClasses(old(page.classList), theme, prefersDark)
    {
      if theme == Dark {
        page.localStorage := page.localStorage[ThemeKey := "dark"];
        page.classList := page.classList + {DarkClass};
      } else if theme == Light {
        page.localStorage := page.localStorage[ThemeKey := "light"];
        page.classList := page.classList - {DarkClass};
      } else if theme == System {
        page.localStorage := page.localStorage - {ThemeKey};
        if prefersDark {
          page.classList := page.classList + {DarkClass};
        } else {
          page.classList := page.classList - {DarkClass};
        }
      }
    }
  }
}
