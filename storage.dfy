/** The browser's local storage: one string-keyed table of strings that every
    component reads and writes synchronously. */
module Storage {
  import opened Wrappers

  /** Keys used by the application. */
  const UserKey := "user"
  const SessionsKey := "activeSessions"
  const ThemeKey := "theme"
  const LanguageKey := "language"

  class Store {
    var entries: map<string, string>

    constructor (initial: map<string, string>)
      ensures entries == initial
    {
      entries := initial;
    }

    /** `getItem`: the stored string, or nothing (null) for an absent key. */
    function Get(key: string): (r: Option<string>)
      reads this
      ensures r.Some? <==> key in entries
      ensures r.Some? ==> r.value == entries[key]
    {
      if key in entries then Some(entries[key]) else None
    }

    /** `setItem`: stores `value` under `key`, nothing else changes. */
    method Set(key: string, value: string)
      modifies this
      ensures entries == old(entries)[key := value]
      ensures Get(key) == Some(value)
    {
      entries := entries[key := value];
    }

    /** `removeItem`: drops `key`, nothing else changes. */
    method Remove(key: string)
      modifies this
      ensures entries == old(entries) - {key}
      ensures Get(key) == None
    {
      entries := entries - {key};
    }
  }
}
