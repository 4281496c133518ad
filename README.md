# Room booking front end: preferences, navigation bar and admin dashboard

This project models the browser side of a room-booking system for a
co-working hub. The model covers five parts:

- **Preference contexts.** The light/dark theme (`Theme`) and the English/Swahili
  language (`Language`). Each one is read from local storage on mount, stored
  back by an effect, and flipped by a toggle. The language context also hands
  out the translation function `t`.
- **Translation tables.** The two constant tables that `t` reads (`Translations`).
- **Navigation bar.** The cached user, the redirect to the login page, logout,
  and the labels of the language and theme buttons (`Navbar`).
- **Admin dashboard.** The admin gate, the sequential load of rooms, bookings
  and locally kept session records, the session duration text, and the
  mutations that patch local state after a backend answer: deleting a room,
  adding a room, approving or rejecting a booking, and removing a session
  record (`AdminDashboard`, `Duration`, `Patches`).

Some JavaScript facilities are modelled as values or parameters:

- Local storage is a class `Storage.Store` holding a string-to-string map.
- A backend request is an input `Outcome`: an ok body, a non-ok answer with an
  optional `error` string, or a request that threw.
- A list load is an `Option`, where `None` means the fetch or its `.json()` threw.
- `JSON.parse` and `JSON.stringify` are function parameters. A parser returns
  `None` when it throws.
- The confirmation prompt is a boolean input. The clock is an integer in
  milliseconds. The "prefers dark" media query is a boolean input.
- Alerts are returned as text.

The main results proved are these:

- Both translation tables have the same key set and no empty entry. From
  this, `t` returns the current language's own entry for every known key. It
  returns the key itself for an unknown key, and behaves as English for an
  unsupported language code.
- The Swahili table gives "reserved rooms" and "booked rooms" the same text,
  while English tells them apart.
- The duration text reads back as the elapsed whole minutes, and is never
  one of the `Unknown`/`Invalid` sentinels.
- The two logouts differ. The navigation bar forgets the user and the session
  records. The dashboard forgets only the user.
- The mount redirect of the navigation bar fires exactly when no parsable user
  payload was stored.
- The admin gate loads data only for a parsed payload whose role is `admin`.
  A payload that does not parse throws inside the effect, so there is neither
  a redirect nor a load.
- The dashboard load stops at the first step that throws.
- The booking status patch changes only the status field, and only of the
  bookings with that id. The decision to reload rooms reads the booking date
  from the list as it was before the patch. Since the patch moves no date,
  that decision would be the same on the patched list.

The dashboard's load runs rooms, then bookings, then session records, in that
order. A throw in one step abandons the later steps. The loads are not
independent of one another (frontend/src/pages/AdminDashboard.jsx:18-37), and
there is no error state: `loading` simply returns to false.

## Model

| member | source | states |
|---|---|---|
| Translations.Table | frontend/src/context/translations.js:1-142 | exactly the codes `en` and `sw` have a table |
| Translations.ScreensSameKeys | frontend/src/context/translations.js:2-141 | the navbar, dashboard and sidebar groups of `en` and `sw` list the same keys |
| Translations.FormsSameKeys | frontend/src/context/translations.js:2-141 | the login, booking, footer, language and theme groups of `en` and `sw` list the same keys |
| Translations.SymmetricKeySets | frontend/src/context/translations.js:2-141 | every key of `en` is a key of `sw` and vice versa |
| Translations.EnScreensNonEmpty | frontend/src/context/translations.js:2-71 | no entry of the first `en` group is the empty string |
| Translations.EnFormsNonEmpty | frontend/src/context/translations.js:2-71 | no entry of the other `en` groups is the empty string |
| Translations.SwScreensNonEmpty | frontend/src/context/translations.js:72-141 | no entry of the first `sw` group is the empty string |
| Translations.SwFormsNonEmpty | frontend/src/context/translations.js:72-141 | no entry of the other `sw` groups is the empty string |
| Translations.NoEmptyEntries | frontend/src/context/translations.js:2-141 | neither table maps a key to the empty string |
| Translations.TableKeySetsAgree | frontend/src/context/translations.js:1-142 | any two tables reachable by language code have equal key sets |
| Translations.TableNoBlankEntries | frontend/src/context/translations.js:1-142 | no table reachable by language code holds an empty entry |
| Translations.EnLogout | frontend/src/context/translations.js:5 | `en` maps `logout` to `Logout` |
| Translations.SwLogout | frontend/src/context/translations.js:75 | `sw` maps `logout` to `Ondoka` |
| Translations.EnReserved | frontend/src/context/translations.js:9 | `en` maps `reservedRooms` to `Reserved Rooms` |
| Translations.EnBooked | frontend/src/context/translations.js:10 | `en` maps `bookedRooms` to `Booked Rooms` |
| Translations.SwReserved | frontend/src/context/translations.js:79 | `sw` maps `reservedRooms` to `Vyumba Vilivyohifadhiwa` |
| Translations.SwBooked | frontend/src/context/translations.js:80 | `sw` maps `bookedRooms` to the same `Vyumba Vilivyohifadhiwa` |
| Translations.SwahiliNotInjective | frontend/src/context/translations.js:79-80 | `sw` gives reserved and booked rooms one string while `en` gives them two |
| Language.Entry | frontend/src/context/LanguageContext.jsx:26 | the optional lookup is present iff the language has a table holding the key, and then it is that table's entry |
| Language.Resolve | frontend/src/context/LanguageContext.jsx:25-27 | `t`: the language's entry if non-empty, else the English entry if non-empty, else the key |
| Language.ResolveKnownKey | frontend/src/context/LanguageContext.jsx:26 | with agreeing key sets and no empty entries, a key of the language's table resolves to that table's entry |
| Language.ResolveUnknownKey | frontend/src/context/LanguageContext.jsx:26 | with agreeing key sets, a key missing from English resolves to itself in every language |
| Language.ResolveUnsupportedLanguage | frontend/src/context/LanguageContext.jsx:26 | a code with no table resolves every key exactly as English does |
| Language.ResolveEnglish | frontend/src/context/LanguageContext.jsx:26 | under English a known key gives its entry and an unknown key gives itself |
| Language.ResolveNonEmpty | frontend/src/context/LanguageContext.jsx:25-27 | with no empty entries, a non-empty key never resolves to the empty string |
| Language.InitialLanguage | frontend/src/context/LanguageContext.jsx:15-18 | a non-empty stored language is used verbatim, otherwise `en` |
| Language.Toggle | frontend/src/context/LanguageContext.jsx:29-31 | the result is `en` or `sw`, and it is `sw` exactly when the previous language was `en` |
| Language.ToggleInvolution | frontend/src/context/LanguageContext.jsx:29-31 | toggling twice restores `en` or `sw` |
| Language.LanguageProvider.Translate | frontend/src/context/LanguageContext.jsx:25-27 | the `t` the context hands out is `Resolve` under the current language and the context's tables |
| Language.LanguageProvider.TranslateKnownKey | frontend/src/context/LanguageContext.jsx:25-27 | in a valid context a key English knows is known to the current table and translates to that table's entry, or to the English one for a code without a table |
| Language.LanguageProvider.TranslateUnknownKey | frontend/src/context/LanguageContext.jsx:25-27 | in a valid context a key English does not know translates to itself |
| Language.LanguageProvider.constructor | frontend/src/context/LanguageContext.jsx:14-22 | mount picks the initial language, stores it under `language`, and sets up tables whose key sets agree and that hold no empty entry |
| Language.LanguageProvider.SetLanguage | frontend/src/context/LanguageContext.jsx:20-22 | any code is accepted and the store changes only when the language does, keeping the stored language equal to the state |
| Language.LanguageProvider.ToggleLanguage | frontend/src/context/LanguageContext.jsx:29-31 | the language becomes its toggle and is stored |
| Theme.InitialTheme | frontend/src/context/ThemeContext.jsx:14-19 | a non-empty stored theme is used verbatim, otherwise `dark` exactly when the host prefers dark, else `light` |
| Theme.Toggle | frontend/src/context/ThemeContext.jsx:39-41 | the result is `light` or `dark`, and it is `dark` exactly when the previous theme was `light` |
| Theme.ToggleChanges | frontend/src/context/ThemeContext.jsx:39-41 | a toggle always changes the theme, so the effect runs after each one |
| Theme.ToggleInvolution | frontend/src/context/ThemeContext.jsx:39-41 | toggling twice restores `light` or `dark` |
| Theme.ThemeProvider.ApplyTheme | frontend/src/context/ThemeContext.jsx:21-37 | the theme is stored, and the root and body carry the dark class exactly when the theme is `dark` |
| Theme.ThemeProvider.constructor | frontend/src/context/ThemeContext.jsx:13-37 | mount picks the initial theme and runs the effect |
| Theme.ThemeProvider.ToggleTheme | frontend/src/context/ThemeContext.jsx:39-41 | the theme becomes its toggle, is stored, and both dark classes follow it |
| Navbar.LoadUser | frontend/src/components/Navbar.jsx:12-23 | a stored payload that parses is the user; one that does not parse is removed and the default user shown; with none stored the default user is shown and the store is untouched |
| Navbar.NeedsLogin | frontend/src/components/Navbar.jsx:25-29 | redirect iff no non-empty user payload is stored |
| Navbar.Mount | frontend/src/components/Navbar.jsx:12-29 | redirect iff the stored payload was missing, empty or unparsable, and then the default user is shown; the store loses the user key exactly when a non-empty payload did not parse, and is otherwise unchanged |
| Navbar.Logout | frontend/src/components/Navbar.jsx:31-35 | the user and the session records are removed, every other key (theme, language) is kept, and the target is the login page |
| Navbar.LanguageLabel | frontend/src/components/Navbar.jsx:67 | the label is `EN` exactly for `en` and `SW` otherwise |
| Navbar.ThemeTitle | frontend/src/components/Navbar.jsx:74 | the title is `t('darkMode')` in the light theme and `t('lightMode')` in any other |
| Navbar.ThemeTitleNamesNextTheme | frontend/src/components/Navbar.jsx:74 | the theme button's title is the translation of the mode a click switches to |
| Text.NatToString | frontend/src/pages/AdminDashboard.jsx:56-59 | decimal digits without a leading zero |
| Text.IntToString | frontend/src/pages/AdminDashboard.jsx:56 | a minus sign exactly for negative numbers, followed by the digits of the magnitude |
| Text.NatToStringValue | frontend/src/pages/AdminDashboard.jsx:56-59 | the digits of `n` denote `n` |
| Text.IntToStringRoundTrip | frontend/src/pages/AdminDashboard.jsx:56-59 | the decimal text of an integer reads back as that integer |
| Text.IncludesOccurs | frontend/src/pages/AdminDashboard.jsx:140 | `includes` holds iff the substring occurs at some position |
| Duration.ElapsedMinutes | frontend/src/pages/AdminDashboard.jsx:55 | the whole minutes elapsed, rounded down |
| Duration.CalculateDuration | frontend/src/pages/AdminDashboard.jsx:49-64 | `Unknown` for a missing login time and `Invalid` for an unparsable one |
| Duration.FormatMinutes | frontend/src/pages/AdminDashboard.jsx:56-59 | the text ends in ` mins` exactly when fewer than 60 minutes elapsed, so the two forms never overlap |
| Duration.MinutesForm | frontend/src/pages/AdminDashboard.jsx:56 | below an hour the text is the minute count followed by ` mins` |
| Duration.HoursForm | frontend/src/pages/AdminDashboard.jsx:57-59 | from an hour on the text is `<h>h <m>m`, with `h >= 1`, `m < 60` and `h*60 + m` the elapsed minutes |
| Duration.MinutesRoundTrip | frontend/src/pages/AdminDashboard.jsx:56 | a minutes text reads back as its minute count |
| Duration.HoursRoundTrip | frontend/src/pages/AdminDashboard.jsx:57-59 | an hours text reads back as its total minutes |
| Duration.DurationRoundTrip | frontend/src/pages/AdminDashboard.jsx:52-59 | the text of a valid login time reads back as the elapsed whole minutes, so it loses nothing |
| Duration.SentinelsDistinct | frontend/src/pages/AdminDashboard.jsx:50-59 | a measured duration is never `Unknown` or `Invalid` |
| Duration.HourSampleText | frontend/src/pages/AdminDashboard.jsx:57-59 | 75 minutes are written `1h 15m` |
| Duration.MinuteSampleText | frontend/src/pages/AdminDashboard.jsx:56 | 10 minutes are written `10 mins` |
| Duration.DurationSamples | frontend/src/pages/AdminDashboard.jsx:49-59 | 75 minutes shows `1h 15m`, 10 minutes shows `10 mins`, and no login time shows `Unknown` |
| Patches.Filter | frontend/src/pages/AdminDashboard.jsx:67 | the result keeps exactly the elements that pass the test and is no longer than the input |
| Patches.FilterAppend | frontend/src/pages/AdminDashboard.jsx:88 | filtering keeps order: it distributes over concatenation |
| Patches.FilterKeepsAll | frontend/src/pages/AdminDashboard.jsx:88 | when every element passes, the list is unchanged |
| Patches.FilterIdempotent | frontend/src/pages/AdminDashboard.jsx:67 | filtering twice by one test is filtering once |
| Patches.WithoutRoom | frontend/src/pages/AdminDashboard.jsx:88 | the rooms left are exactly those whose id differs |
| Patches.WithoutRoomIdempotent | frontend/src/pages/AdminDashboard.jsx:88 | deleting the same room twice leaves what deleting it once left |
| Patches.WithoutRoomAbsent | frontend/src/pages/AdminDashboard.jsx:88 | deleting an id no room has leaves the list unchanged |
| Patches.WithoutSession | frontend/src/pages/AdminDashboard.jsx:67 | the records left are exactly those whose id differs |
| Patches.WithoutSessionIdempotent | frontend/src/pages/AdminDashboard.jsx:67 | removing the same record twice is removing it once |
| Patches.SetStatus | frontend/src/pages/AdminDashboard.jsx:132-134 | same length, the bookings with that id carry the new status, the others keep theirs, and no other field changes |
| Patches.SetStatusIdempotent | frontend/src/pages/AdminDashboard.jsx:132-134 | applying the same status change twice is applying it once |
| Patches.FindBooking | frontend/src/pages/AdminDashboard.jsx:138 | nothing iff no booking has the id, otherwise the first booking that has it |
| Patches.ShouldReloadRooms | frontend/src/pages/AdminDashboard.jsx:137-140 | a reload is wanted iff the first booking with that id has a present, non-empty date in which `today` occurs as a substring |
| Patches.FirstWithIdUnique | frontend/src/pages/AdminDashboard.jsx:138 | at most one position is the first to carry a given id |
| Patches.ReloadCheckIgnoresStatus | frontend/src/pages/AdminDashboard.jsx:132-140 | the reload decision is the same on the list before and after the status patch |
| AdminDashboard.Gate | frontend/src/pages/AdminDashboard.jsx:40-47 | data loads iff a stored payload parses to a user whose role is `admin`; the effect throws iff a stored payload does not parse; otherwise it redirects |
| AdminDashboard.StoredSessions | frontend/src/pages/AdminDashboard.jsx:31 | no stored records give the empty list; stored text is parsed |
| AdminDashboard.Action | frontend/src/pages/AdminDashboard.jsx:120 | the verb is `approve` or `reject`, and it is `approve` exactly for `confirmed` |
| AdminDashboard.Dashboard.constructor | frontend/src/pages/AdminDashboard.jsx:9-14 | empty lists, modal closed, not loading |
| AdminDashboard.Dashboard.FetchData | frontend/src/pages/AdminDashboard.jsx:16-38 | rooms, then bookings, then records are replaced in order up to the first step that throws, which is reported; later lists keep their old value; `loading` ends false |
| AdminDashboard.Dashboard.Open | frontend/src/pages/AdminDashboard.jsx:40-47 | the gate decides; nothing is loaded or changed unless it lets an admin through, and then the lists and the reported failure are those of `fetchData` |
| AdminDashboard.Dashboard.RemoveSession | frontend/src/pages/AdminDashboard.jsx:66-72 | the records with that id are dropped, and the stringified remainder is stored under `activeSessions` with no other key changed |
| AdminDashboard.Dashboard.Logout | frontend/src/pages/AdminDashboard.jsx:74-77 | only the user is removed, the session records stay, and the target is the login page |
| AdminDashboard.Dashboard.DeleteRoom | frontend/src/pages/AdminDashboard.jsx:79-96 | without confirmation nothing is requested; an ok answer deletes the room; a failure keeps the rooms and alerts the server's error, the default text or the connection error |
| AdminDashboard.Dashboard.AddRoom | frontend/src/pages/AdminDashboard.jsx:98-117 | an ok answer appends the created room and closes the modal; a failure changes neither and alerts |
| AdminDashboard.Dashboard.UpdateStatus | frontend/src/pages/AdminDashboard.jsx:119-156 | after confirmation and an ok answer the status is patched; rooms are reloaded iff the pre-patch booking's date contains today; a failed reload keeps the rooms and alerts the connection error; a failed request changes nothing |

## Left out

- Rendering is not modelled: the JSX markup, the styling, the icons, the tabs (`activeTab`) and the add-room modal's form. `AddRoomModal` and `Footer` are not part of this model.
- Requests are inputs. URLs, methods, headers and request bodies are not modelled, and neither is the date query string built from `toLocaleDateString`.
- Console output is left out, and so are the errors the `useTheme`/`useLanguage` hooks throw outside their providers.
- `window.confirm`, `alert`, `window.matchMedia`, the clock and navigation are inputs or returned values, not effects.
- JSON parsing and serialisation are parameters. A stored user payload that parses to a non-object (`null`, a number) is not represented, and neither is a records payload that parses to a falsy value other than a missing key.
- AdminDashboard.Dashboard.FetchData: a rooms or bookings answer that is not ok still has its JSON body stored in the source. The model has no value for such an error object, so a load input is only a list or a throw.
- AdminDashboard.Dashboard.UpdateStatus: the reload of today's rooms stores its JSON body without checking `res.ok`, like `fetchData` does (frontend/src/pages/AdminDashboard.jsx:142-144). An error object stored as rooms has no value in the model, so `reload` is only a list or a throw.
- AdminDashboard.Dashboard.DeleteRoom, AddRoom and UpdateStatus: a non-ok answer whose body does not parse is the `ConnError` input, since in the source that throw reaches the same catch block.
- Duration.CalculateDuration: the `Error` branch of the catch is not modelled. With the login time given as `Missing`, `Unparsable` or milliseconds, nothing in the try block throws. Every falsy login time (the empty string, 0, null) is `Missing`.
- Language.Resolve: keys inherited through JavaScript's prototype chain (such as `constructor`) are not looked up. A table here is a plain map.
- Translations: the model does not prove that each table has 53 keys. Deciding that 53 string literals are pairwise distinct is beyond the solver budget, so the tables are stated as literal maps, and their equal key sets and non-empty entries are proved instead.
- Concurrency is not modelled. State updates apply in program order, with no interleaving between awaited requests and no stale-closure effects beyond the pre-patch `bookings` read in `handleUpdateStatus`.
