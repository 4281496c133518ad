/** The light/dark theme preference and its effect on the page. */
module Theme {
  import opened Wrappers
  import opened Storage

  /** The initial theme: the stored value verbatim when it is non-empty (even
      one that is neither `light` nor `dark`); otherwise the host's
      "prefers dark" signal decides. */
  function InitialTheme(saved: Option<string>, prefersDark: bool): (r: string)
    ensures Truthy(saved) ==> r == saved.value
    ensures !Truthy(saved) ==> (r == "dark" <==> prefersDark)
    ensures !Truthy(saved) ==> (r == "light" || r == "dark")
  {
    if saved.Some? && saved.value != "" then saved.value
    else if prefersDark then "dark" else "light"
  }

  /** `toggleTheme`'s update: `light` becomes `dark`, anything else `light`. */
  function Toggle(previous: string): (r: string)
    ensures r == "light" || r == "dark"
    ensures r == "dark" <==> previous == "light"
  {
    if previous == "light" then "dark" else "light"
  }

  /** Toggling always changes the theme, so the effect runs on every toggle. */
  lemma ToggleChanges(theme: string)
    ensures Toggle(theme) != theme
  {
  }

  /** Toggling twice is the identity on the two themes. */
  lemma ToggleInvolution(theme: string)
    requires theme == "light" || theme == "dark"
    ensures Toggle(Toggle(theme)) == theme
  {
  }

  /** The theme context: the current theme, and whether the `dark` class is on
      the document root and on the body. */
  class ThemeProvider {
    var theme: string
    var rootDark: bool
    var bodyDark: bool
    const store: Store

    /** The effect has run for the current theme: it is stored under `theme`,
        and both elements carry the dark class exactly when it is `dark`. */
    ghost predicate Valid()
      reads this, store
    {
      && store.Get(ThemeKey) == Some(theme)
      && rootDark == (theme == "dark")
      && bodyDark == rootDark
    }

    /** The effect run after every change of theme. */
    method ApplyTheme()
      modifies this`rootDark, this`bodyDark, store
      ensures store.entries == old(store.entries)[ThemeKey := theme]
      ensures Valid()
    {
      store.Set(ThemeKey, theme);
      if theme == "dark" {
        rootDark, bodyDark := true, true;
      } else {
        rootDark, bodyDark := false, false;
      }
    }

    /** Mount: pick the initial theme, then run the effect. */
    constructor (store: Store, prefersDark: bool)
      modifies store
      ensures this.store == store
      ensures theme == InitialTheme(old(store.Get(ThemeKey)), prefersDark)
      ensures store.entries == old(store.entries)[ThemeKey := theme]
      ensures Valid()
    {
      this.store := store;
      var saved := store.Get(ThemeKey);
      theme := InitialTheme(saved, prefersDark);
      new;
      ApplyTheme();
    }

    /** `toggleTheme`: flip the theme, then run the effect. */
    method ToggleTheme()
      requires Valid()
      modifies this, store
      ensures theme == Toggle(old(theme))
      ensures store.entries == old(store.entries)[ThemeKey := theme]
      ensures rootDark == bodyDark == (theme == "dark")
      ensures Valid()
    {
      theme := Toggle(theme);
      ApplyTheme();
    }
  }
}
