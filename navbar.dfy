/** The navigation bar: the cached user, the login redirect, logout, and the
    labels of the language and theme buttons. */
module Navbar {
  import opened Wrappers
  import opened Storage
  import opened Records
  import Language
  import Theme

  const LoginPath := "/login"

  /** Shown when there is no usable stored user. */
  const DefaultUser := User("User", "", None)

  /** The `user` state initializer: a non-empty stored payload that parses is
      used as it is; one that does not parse is removed from the store; in
      both failure cases the default user is shown. */
  method LoadUser(store: Store, parse: UserParser) returns (user: User)
    modifies store
    ensures var stored := old(store.Get(UserKey));
            if Truthy(stored) && parse(stored.value).Some? then
              user == parse(stored.value).value && store.entries == old(store.entries)
            else if Truthy(stored) then
              user == DefaultUser && store.entries == old(store.entries) - {UserKey}
            else
              user == DefaultUser && store.entries == old(store.entries)
  {
    var stored := store.Get(UserKey);
    if stored.Some? && stored.value != "" {
      var parsed := parse(stored.value);
      if parsed.Some? {
        return parsed.value;
      }
      store.Remove(UserKey);
    }
    user := DefaultUser;
  }

  /** The redirect effect: go to the login page when no user is stored. */
  method NeedsLogin(store: Store) returns (redirect: bool)
    ensures redirect <==> !Truthy(store.Get(UserKey))
  {
    var stored := store.Get(UserKey);
    redirect := stored.None? || stored.value == "";
  }

  /** Mounting the bar: the initializer, then the effect. The redirect
      happens exactly when no usable user payload was stored, a corrupt one
      included, since the initializer has removed it by then. */
  method Mount(store: Store, parse: UserParser) returns (user: User, redirect: bool)
    modifies store
    ensures var stored := old(store.Get(UserKey));
            redirect <==> !Truthy(stored) || parse(stored.value).None?
    ensures redirect ==> user == DefaultUser
    ensures !redirect ==> user == parse(old(store.Get(UserKey)).value).value
    ensures var stored := old(store.Get(UserKey));
            store.entries == if Truthy(stored) && parse(stored.value).None? then old(store.entries) - {UserKey}
                             else old(store.entries)
  {
    user := LoadUser(store, parse);
    redirect := NeedsLogin(store);
  }

  /** `handleLogout`: forget the user and the session records, keep every
      other key (theme and language among them), go to the login page. */
  method Logout(store: Store) returns (target: string)
    modifies store
    ensures store.entries == old(store.entries) - {UserKey, SessionsKey}
    ensures UserKey !in store.entries && SessionsKey !in store.entries
    ensures store.Get(ThemeKey) == old(store.Get(ThemeKey))
    ensures store.Get(LanguageKey) == old(store.Get(LanguageKey))
    ensures target == LoginPath
  {
    store.Remove(UserKey);
    store.Remove(SessionsKey);
    target := LoginPath;
  }

  /** The language button's label names the current language. */
  function LanguageLabel(language: string): (r: string)
    ensures r == "EN" <==> language == "en"
    ensures r == "EN" || r == "SW"
  {
    if language == "en" then "EN" else "SW"
  }

  /** The theme button's title: `t('darkMode')` in the light theme,
      `t('lightMode')` in any other. */
  function ThemeTitle(tables: Language.Tables, language: string, theme: string): (r: string)
    ensures theme == "light" ==> r == Language.Resolve(tables, language, "darkMode")
    ensures theme != "light" ==> r == Language.Resolve(tables, language, "lightMode")
  {
    if theme == "light" then Language.Resolve(tables, language, "darkMode")
    else Language.Resolve(tables, language, "lightMode")
  }

  /** The title names the theme a click switches to. */
  lemma ThemeTitleNamesNextTheme(tables: Language.Tables, language: string, theme: string)
    ensures ThemeTitle(tables, language, theme) == Language.Resolve(tables, language, Theme.Toggle(theme) + "Mode")
  {
    if theme == "light" {
      assert Theme.Toggle(theme) + "Mode" == "darkMode";
    } else {
      assert Theme.Toggle(theme) + "Mode" == "lightMode";
    }
  }
}
