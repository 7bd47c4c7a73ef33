/** src/store/theme.ts: the colour theme, persisted under "theme" and mirrored by the "dark"
    class of the document element. The system colour-scheme preference is a parameter. */
module Theme {
  import opened Wrappers
  import Browser

  const ThemeKey: string := "theme"
  const DarkClass: string := "dark"

  /** `getInitialTheme`: a non-empty stored value as it is (it is not checked to be "light" or
      "dark"), else "dark" iff the system prefers dark. */
  function InitialTheme(saved: Option<string>, prefersDark: bool): (t: string)
    ensures saved.Some? && saved.value != "" ==> t == saved.value
    ensures !(saved.Some? && saved.value != "") ==> (t == "dark" <==> prefersDark) && (t == "dark" || t == "light")
  {
    if saved.Some? && saved.value != "" then saved.value
    else if prefersDark then "dark" else "light"
  }

  /** The theme after a toggle: "light" becomes "dark", every other value becomes "light". */
  function NextTheme(current: string): (t: string)
    ensures t == "dark" <==> current == "light"
    ensures t == "light" || t == "dark"
  {
    if current == "light" then "dark" else "light"
  }

  /** Toggling twice restores the theme exactly when it was "light" or "dark". */
  lemma ToggleTwice(current: string)
    ensures NextTheme(NextTheme(current)) == current <==> current == "light" || current == "dark"
  {
  }

  class ThemeStore {
    const storage: Browser.Storage
    const document: Browser.DocumentElement
    var theme: string

    constructor (storage: Browser.Storage, document: Browser.DocumentElement, prefersDark: bool)
      ensures this.storage == storage && this.document == document
      ensures theme == InitialTheme(storage.GetItem(ThemeKey), prefersDark)
    {
      this.storage := storage;
      this.document := document;
      theme := InitialTheme(storage.GetItem(ThemeKey), prefersDark);
    }

    /** `toggleThemeAtom`: the new theme is persisted, becomes the atom's value, and the
        document has the "dark" class iff it is "dark"; no other class changes. */
    method ToggleTheme()
      modifies this, storage, document
      ensures theme == NextTheme(old(theme))
      ensures storage.items == old(storage.items)[ThemeKey := theme]
      ensures storage.GetItem(ThemeKey) == Some(theme)
      ensures DarkClass in document.classes <==> theme == "dark"
      ensures document.classes - {DarkClass} == old(document.classes) - {DarkClass}
    {
      var currentTheme := theme;
      var newTheme := if currentTheme == "light" then "dark" else "light";
      storage.SetItem(ThemeKey, newTheme);
      theme := newTheme;
      document.ToggleClass(DarkClass, newTheme == "dark");
    }
  }
}
