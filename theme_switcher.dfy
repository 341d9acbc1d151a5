/**
  The light/dark switch: the theme value the theme hook holds, and the toggle
  that picks the other theme, writes it to storage and sets or clears the
  root element's `dark` class.
 */
module ThemeSwitcher {
  import opened Dom

  const Light := "light"
  const Dark := "dark"

  predicate IsDark(theme: string): (dark: bool)
    ensures dark <==> theme == Dark
  {
    theme == Dark
  }

  /** The theme a toggle switches to: only "dark" goes to "light"; any other value goes to "dark". */
  function NewTheme(theme: string): (r: string)
    ensures r == Light <==> IsDark(theme)
    ensures r == Dark <==> !IsDark(theme)
  {
    if IsDark(theme) then Light else Dark
  }

  /** The tooltip text, also the button's aria-label: it names the theme a press switches to. */
  function SwitchLabel(theme: string): (text: string)
    ensures text == "Switch to " + NewTheme(theme) + " mode"
  {
    "Switch to " + (if IsDark(theme) then "light" else "dark") + " mode"
  }

  /** What a toggle reads and writes: the theme value, the storage and the root class list. */
  datatype Appearance = Appearance(theme: string, storage: map<string, string>, rootClasses: set<string>)

  /** The root class list agrees with the theme. */
  predicate Synced(a: Appearance)
  {
    DarkClass in a.rootClasses <==> IsDark(a.theme)
  }

  /**
    The effect of `toggleTheme`: the new theme is recorded, stored under the
    theme key, and the root carries `dark` exactly when the new theme is dark.
    No other storage key and no other root class changes.
   */
  function Toggle(a: Appearance): (r: Appearance)
    ensures r.theme == NewTheme(a.theme)
    ensures ThemeKey in r.storage && r.storage[ThemeKey] == r.theme
    ensures forall k :: k != ThemeKey ==> (k in r.storage <==> k in a.storage)
    ensures forall k :: k != ThemeKey && k in a.storage ==> r.storage[k] == a.storage[k]
    ensures DarkClass in r.rootClasses <==> IsDark(r.theme)
    ensures r.rootClasses - {DarkClass} == a.rootClasses - {DarkClass}
    ensures Synced(r)
  {
    var newTheme := NewTheme(a.theme);
    Appearance(newTheme, a.storage[ThemeKey := newTheme], WithClass(a.rootClasses, DarkClass, newTheme == Dark))
  }

  /**
    From "light" or "dark", two toggles restore the theme and the root's
    `dark` membership, and storage ends up holding the starting theme; from
    a state whose root already agreed with its theme, the root class list
    is exactly restored.
   */
  lemma ToggleTwiceRestores(a: Appearance)
    requires a.theme == Light || a.theme == Dark
    ensures Toggle(Toggle(a)).theme == a.theme
    ensures Toggle(Toggle(a)).storage[ThemeKey] == a.theme
    ensures DarkClass in Toggle(Toggle(a)).rootClasses <==> IsDark(a.theme)
    ensures Synced(a) ==> Toggle(Toggle(a)) == a.(storage := a.storage[ThemeKey := a.theme])
  {
  }

  /** A theme other than "light" or "dark" (such as "system") toggles to "dark", then to "light". */
  lemma ToggleFromOtherTheme(a: Appearance)
    requires a.theme != Light && a.theme != Dark
    ensures Toggle(a).theme == Dark && Toggle(Toggle(a)).theme == Light
  {
  }

  /** The switch: the theme hook's value and the document it writes to. */
  class Switch {
    var theme: string
    const dom: Document

    constructor (theme: string, dom: Document)
      ensures this.theme == theme && this.dom == dom
    {
      this.theme := theme;
      this.dom := dom;
    }

    function Snapshot(): Appearance
      reads this, dom
    {
      Appearance(theme, dom.storage, dom.rootClasses)
    }

    /** `toggleTheme`. */
    method ToggleTheme()
      modifies this, dom
      ensures theme == NewTheme(old(theme))
      ensures dom.storage == old(dom.storage)[ThemeKey := theme]
      ensures dom.rootClasses == WithClass(old(dom.rootClasses), DarkClass, theme == Dark)
      ensures dom.bodyClasses == old(dom.bodyClasses)
      ensures Snapshot() == Toggle(old(Snapshot()))
    {
      var newTheme := if IsDark(theme) then Light else Dark;
      theme := newTheme;
      dom.storage := dom.storage[ThemeKey := newTheme];
      if newTheme == Dark {
        dom.rootClasses := dom.rootClasses + {DarkClass};
      } else {
        dom.rootClasses := dom.rootClasses - {DarkClass};
      }
    }
  }
}
