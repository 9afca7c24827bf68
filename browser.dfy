/** The browser state the theme code reads and writes: `localStorage` as a
    map from keys to strings, and the class list of the root element. */
module Browser {
  import opened Common

  /** The storage key both theme controls use. */
  const ThemeKey: string := "theme"
  /** The root element's class that switches the dark styles on. */
  const DarkClass: string := "dark"

  /** `localStorage.getItem(key)`: `null` when the key is absent. */
  function GetItem(storage: map<string, string>, key: string): (r: Option<string>)
    ensures r.Some? <==> key in storage
    ensures r.Some? ==> r.value == storage[key]
  {
    if key in storage then Some(storage[key]) else None
  }

  class Page {
    var localStorage: map<string, string>
    /** `document.documentElement.classList`. */
    var classList: set<string>

    constructor (localStorage: map<string, string>, classList: set<string>)
      ensures this.localStorage == localStorage && this.classList == classList
    {
      this.localStorage := localStorage;
      this.classList := classList;
    }
  }
}
