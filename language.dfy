/** The language preference and the translation function `t`. */
module Language {
  import opened Wrappers
  import opened Storage
  import opened Translations

  const DefaultLanguage := "en"

  /** A lookup of translation tables by language code, as `translations` is. */
  type Tables = string -> Option<map<string, string>>

  /** `tables[language]?.[key]`: missing when there is no table for the
      language or no such key in it. */
  function Entry(tables: Tables, language: string, key: string): (r: Option<string>)
    ensures r.Some? <==> tables(language).Some? && key in tables(language).value
    ensures r.Some? ==> r.value == tables(language).value[key]
  {
    match tables(language)
    case None => None
    case Some(table) => if key in table then Some(table[key]) else None
  }

  /** `t(key)` under `language`: the language's entry when it is present and
      non-empty, else the English entry when present and non-empty, else the
      key itself. It is total. */
  function Resolve(tables: Tables, language: string, key: string): (r: string)
    ensures Truthy(Entry(tables, language, key)) ==> r == Entry(tables, language, key).value
    ensures !Truthy(Entry(tables, language, key)) && Truthy(Entry(tables, "en", key)) ==>
              r == Entry(tables, "en", key).value
    ensures !Truthy(Entry(tables, language, key)) && !Truthy(Entry(tables, "en", key)) ==>
              r == key
  {
    OrElse(Entry(tables, language, key), OrElse(Entry(tables, "en", key), key))
  }

  /** When the tables agree on their keys and hold no empty string, a key of
      the language's table resolves to that table's own entry. */
  lemma ResolveKnownKey(tables: Tables, language: string, key: string)
    requires KeySetsAgree(tables) && NoBlankEntries(tables)
    requires tables(language).Some? && key in tables(language).value
    ensures Resolve(tables, language, key) == tables(language).value[key]
  {
  }

  /** When the tables agree on their keys, a key missing from English comes
      back verbatim, whatever the language. */
  lemma ResolveUnknownKey(tables: Tables, language: string, key: string)
    requires KeySetsAgree(tables)
    requires tables("en").Some? && key !in tables("en").value
    ensures Resolve(tables, language, key) == key
  {
    if tables(language).Some? {
      assert tables(language).value.Keys == tables("en").value.Keys;
    }
  }

  /** A language code without a table resolves exactly as English does. */
  lemma ResolveUnsupportedLanguage(tables: Tables, language: string, key: string)
    requires tables(language).None?
    ensures Resolve(tables, language, key) == Resolve(tables, "en", key)
  {
  }

  /** Under English only the English table is consulted. */
  lemma ResolveEnglish(tables: Tables, key: string)
    requires NoBlankEntries(tables)
    requires tables("en").Some?
    ensures key in tables("en").value ==> Resolve(tables, "en", key) == tables("en").value[key]
    ensures key !in tables("en").value ==> Resolve(tables, "en", key) == key
  {
  }

  /** The result is one of the three candidates and is never empty for a
      non-empty key when no table holds an empty string. */
  lemma ResolveNonEmpty(tables: Tables, language: string, key: string)
    requires NoBlankEntries(tables)
    requires key != ""
    ensures Resolve(tables, language, key) != ""
  {
  }

  /** The initial language: the stored value when it is non-empty, else `en`. */
  function InitialLanguage(saved: Option<string>): (r: string)
    ensures Truthy(saved) ==> r == saved.value
    ensures !Truthy(saved) ==> r == DefaultLanguage
  {
    OrElse(saved, DefaultLanguage)
  }

  /** `toggleLanguage`'s update: `en` becomes `sw`, anything else `en`. */
  function Toggle(previous: string): (r: string)
    ensures r == "en" || r == "sw"
    ensures r == "sw" <==> previous == "en"
  {
    if previous == "en" then "sw" else "en"
  }

  /** Toggling twice is the identity on the two supported languages. */
  lemma ToggleInvolution(language: string)
    requires language == "en" || language == "sw"
    ensures Toggle(Toggle(language)) == language
  {
  }

  /** The language context: the current language and the tables `t` reads;
      the current language is kept in the store under `language`. */
  class LanguageProvider {
    var language: string
    const tables: Tables
    const store: Store

    ghost predicate Valid()
      reads this, store
    {
      && KeySetsAgree(tables)
      && NoBlankEntries(tables)
      && store.Get(LanguageKey) == Some(language)
    }

    /** `t`, as the context hands it out. */
    function Translate(key: string): (r: string)
      reads this
      ensures r == Resolve(tables, language, key)
    {
      Resolve(tables, language, key)
    }

    /** A key that English knows translates to the current language's own
        entry, or to the English one when the language has no table. */
    lemma TranslateKnownKey(key: string)
      requires Valid()
      requires tables("en").Some? && key in tables("en").value
      ensures tables(language).Some? ==> key in tables(language).value
      ensures Translate(key) == if tables(language).Some? then tables(language).value[key]
                                else tables("en").value[key]
    {
      if tables(language).Some? {
        assert tables(language).value.Keys == tables("en").value.Keys;
        ResolveKnownKey(tables, language, key);
      } else {
        ResolveUnsupportedLanguage(tables, language, key);
        ResolveKnownKey(tables, "en", key);
      }
    }

    /** A key that English does not know comes back verbatim. */
    lemma TranslateUnknownKey(key: string)
      requires Valid()
      requires tables("en").Some? && key !in tables("en").value
      ensures Translate(key) == key
    {
      ResolveUnknownKey(tables, language, key);
    }

    /** Mount: read the saved language, then the persist effect stores it. */
    constructor (store: Store)
      modifies store
      ensures this.store == store && tables == Table
      ensures language == InitialLanguage(old(store.Get(LanguageKey)))
      ensures store.entries == old(store.entries)[LanguageKey := language]
      ensures Valid()
    {
      this.store := store;
      tables := Table;
      var saved := store.Get(LanguageKey);
      language := InitialLanguage(saved);
      new;
      TableKeySetsAgree();
      TableNoBlankEntries();
      store.Set(LanguageKey, language);
    }

    /** `setLanguage(code)`: any code is accepted; the persist effect runs
        only when the language changes. */
    method SetLanguage(code: string)
      requires Valid()
      modifies this, store
      ensures language == code
      ensures store.entries == if old(language) == code then old(store.entries)
                               else old(store.entries)[LanguageKey := code]
      ensures Valid()
    {
      if code != language {
        language := code;
        store.Set(LanguageKey, language);
      }
    }

    /** `toggleLanguage`. */
    method ToggleLanguage()
      requires Valid()
      modifies this, store
      ensures language == Toggle(old(language))
      ensures store.entries == old(store.entries)[LanguageKey := language]
      ensures Valid()
    {
      SetLanguage(Toggle(language));
    }
  }
}
