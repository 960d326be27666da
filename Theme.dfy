/**
 * The page's light/dark theme: a `dark` flag that starts out true, is restored
 * from local storage when the page mounts, flips when the header button is
 * pressed, and is written back to storage after every change.
 *
 * The `localStorage` object is modelled as a map from keys to strings. React's
 * effects are modelled as the state changes they make, in the order React runs
 * them: the load effect schedules an update of `dark`, the persist effect then
 * runs for the first render (with `dark` still true), and when the scheduled
 * update changed `dark`, the page renders again and the persist effect runs
 * once more.
 */
module Theme {
  import opened Wrappers

  /** The storage key the page uses. */
  const THEME_KEY := "theme"

  /** `localStorage.getItem(key)`: the stored string, or nothing when the key is absent. */
  function GetItem(storage: map<string, string>, key: string): (r: Option<string>)
    ensures r == None <==> key !in storage
    ensures r != None ==> key in storage && r.value == storage[key]
  {
    if key in storage then Some(storage[key]) else None
  }

  /** What the persist effect writes for the theme `dark`: the name of the other theme. */
  function StoredValue(dark: bool): (r: string)
    ensures r != []
    ensures r == "dark" <==> !dark
    ensures r == "light" <==> dark
  {
    if dark then "light" else "dark"
  }

  /** The flag after the load effect: a non-empty stored string sets it to whether that string is `dark`; anything else keeps `current`. */
  function Restored(saved: Option<string>, current: bool): (r: bool)
    ensures saved == None || saved == Some("") ==> r == current
    ensures saved != None && saved.value != "" ==> (r <==> saved.value == "dark")
  {
    match saved
    case None => current
    case Some(s) => if s != "" then s == "dark" else current
  }

  /** The page's theme state: the `dark` flag and the browser's local storage. */
  class Page {
    var dark: bool
    var storage: map<string, string>

    /** Storage holds, under the theme key, what the persist effect writes for the current flag; a load effect reading it would then restore the other theme. */
    predicate Persisted(): (r: bool)
      reads this
      ensures r ==> forall current :: Restored(GetItem(storage, THEME_KEY), current) == !dark
    {
      THEME_KEY in storage && storage[THEME_KEY] == StoredValue(dark)
    }

    /** The first render: `useState(true)`, over whatever storage the browser already holds. */
    constructor (stored: map<string, string>)
      ensures dark
      ensures storage == stored
    {
      dark := true;
      storage := stored;
    }

    /** Mounting: the load effect, the persist effect for the first render, and the persist effect again if the flag changed. */
    method Mount()
      modifies this
      ensures dark == Restored(GetItem(old(storage), THEME_KEY), old(dark))
      ensures storage == old(storage)[THEME_KEY := StoredValue(dark)]
      ensures Persisted()
    {
      var saved := GetItem(storage, THEME_KEY);
      var next := Restored(saved, dark);
      storage := storage[THEME_KEY := StoredValue(dark)];
      if next != dark {
        dark := next;
        storage := storage[THEME_KEY := StoredValue(dark)];
      }
    }

    /** The header button: `setDark(!dark)`, then the persist effect for the new flag. */
    method Toggle()
      modifies this
      ensures dark == !old(dark)
      ensures storage == old(storage)[THEME_KEY := StoredValue(dark)]
      ensures Persisted()
    {
      dark := !dark;
      storage := storage[THEME_KEY := StoredValue(dark)];
    }
  }

  /** Mounting over storage without a theme entry, or with an empty one, keeps the dark theme. */
  method MountWithoutPreference(stored: map<string, string>) returns (dark: bool)
    requires THEME_KEY !in stored || stored[THEME_KEY] == ""
    ensures dark
  {
    var page := new Page(stored);
    page.Mount();
    dark := page.dark;
  }

  /** Pressing the theme button twice restores both the flag and the storage. */
  method ToggleTwice(page: Page)
    requires page.Persisted()
    modifies page
    ensures page.dark == old(page.dark)
    ensures page.storage == old(page.storage)
  {
    page.Toggle();
    page.Toggle();
  }

  /** Whatever the storage, the theme a page mounts with is reversed by the next reload. */
  method ReloadTwice(stored: map<string, string>) returns (first: bool, second: bool)
    ensures second == !first
  {
    var page := new Page(stored);
    page.Mount();
    first := page.dark;
    var reloaded := new Page(page.storage);
    reloaded.Mount();
    second := reloaded.dark;
    ReadsBackInverted(first);
  }

  /** Reading back what the persist effect wrote for `dark` gives the other theme, whatever the flag before. */
  lemma ReadsBackInverted(dark: bool)
    ensures forall current :: Restored(Some(StoredValue(dark)), current) == !dark
  {
  }

  /** A pressed button followed by a reload shows the theme from before the press. */
  method ToggleThenReload(stored: map<string, string>) returns (before: bool, after: bool)
    ensures after == before
  {
    var page := new Page(stored);
    page.Mount();
    before := page.dark;
    page.Toggle();
    var reloaded := new Page(page.storage);
    reloaded.Mount();
    after := reloaded.dark;
  }

  // ---------------------------------------------------------------------------
  // The intended persistence
  // ---------------------------------------------------------------------------

  /** The value that would make the preference survive a reload: the name of the current theme. */
  function IntendedStoredValue(dark: bool): (r: string)
    ensures r != []
    ensures r == "dark" <==> dark
  {
    if dark then "dark" else "light"
  }

  /** With the intended value stored, reading it back gives the same theme, whatever the flag before. */
  lemma IntendedReadsBack(dark: bool)
    ensures forall current :: Restored(Some(IntendedStoredValue(dark)), current) == dark
  {
  }
}
