/** The two constant translation tables, English (`en`) and Swahili (`sw`),
    keyed by translation key, and the lookup of a table by language code.
    Each table is written as two displays (the groups the source lists first,
    then the rest); their keys are disjoint, so the union is the table. */
module Translations {
  import opened Wrappers

  /** The `en` table, first part: Navbar, Dashboard, Sidebar. */
  const EnScreens: map<string, string> := map[
    "bookingSystem" := "Booking System",
    "logout" := "Logout",
    "availableRooms" := "Available Rooms",
    "reservedRooms" := "Reserved Rooms",
    "bookedRooms" := "Booked Rooms",
    "forDate" := "For Date:",
    "searchPlaceholder" := "Search by room name, amenities, capacity...",
    "checkingAvailability" := "Checking availability...",
    "noRoomsFound" := "No rooms found in this category.",
    "tryAgain" := "Try Again",
    "capacity" := "Capacity",
    "people" := "people",
    "amenities" := "Amenities",
    "bookRoom" := "Book Room",
    "reserveForLater" := "Reserve for Later",
    "available" := "Available",
    "reserved" := "Reserved",
    "booked" := "Booked",
    "home" := "Home",
    "myBookings" := "My Bookings",
    "myReservations" := "My Reservations"
  ]

  /** The `en` table, second part: Login, Booking Modal, Footer, Language, Theme. */
  const EnForms: map<string, string> := map[
    "welcomeBack" := "Welcome Back",
    "signInToAccount" := "Sign in to your account to book rooms",
    "email" := "Email",
    "password" := "Password",
    "signIn" := "Sign In",
    "signingIn" := "Signing in...",
    "dontHaveAccount" := "Don't have an account?",
    "signUp" := "Sign up",
    "selectDateTime" := "Select a date, time, and duration for your",
    "booking" := "booking",
    "reservation" := "reservation",
    "book" := "Book",
    "reserve" := "Reserve",
    "date" := "Date",
    "startTime" := "Start Time",
    "endTime" := "End Time",
    "duration" := "Duration",
    "selectStartTime" := "Select start time",
    "selectEndTime" := "Select end time",
    "selectDuration" := "Select duration",
    "cancel" := "Cancel",
    "confirmBooking" := "Confirm Booking",
    "confirmReservation" := "Confirm Reservation",
    "confirmed" := "Confirmed!",
    "submitting" := "Submitting...",
    "bookingConfirmed" := "Booking confirmed! Check your email for details.",
    "allRightsReserved" := "All rights reserved.",
    "language" := "Language",
    "english" := "English",
    "swahili" := "Swahili",
    "darkMode" := "Dark Mode",
    "lightMode" := "Light Mode"
  ]

  /** `translations.en`. */
  const En: map<string, string> := EnForms + EnScreens

  /** The `sw` table, first part: Navbar, Dashboard, Sidebar. */
  const SwScreens: map<string, string> := map[
    "bookingSystem" := "Mfumo wa Kuhifadhi",
    "logout" := "Ondoka",
    "availableRooms" := "Vyumba Vinavyopatikana",
    "reservedRooms" := "Vyumba Vilivyohifadhiwa",
    "bookedRooms" := "Vyumba Vilivyohifadhiwa",
    "forDate" := "Kwa Tarehe:",
    "searchPlaceholder" := "Tafuta kwa jina la chumba, vifaa, uwezo...",
    "checkingAvailability" := "Kuangalia upatikanaji...",
    "noRoomsFound" := "Hakuna vyumba vilivyopatikana katika kategoria hii.",
    "tryAgain" := "Jaribu Tena",
    "capacity" := "Uwezo",
    "people" := "watu",
    "amenities" := "Vifaa",
    "bookRoom" := "Hifadhi Chumba",
    "reserveForLater" := "Weka Akiba kwa Baadaye",
    "available" := "Inapatikana",
    "reserved" := "Imehifadhiwa",
    "booked" := "Imechukiliwa",
    "home" := "Nyumbani",
    "myBookings" := "Uhifadhi Wangu",
    "myReservations" := "Akiba Zangu"
  ]

  /** The `sw` table, second part: Login, Booking Modal, Footer, Language, Theme. */
  const SwForms: map<string, string> := map[
    "welcomeBack" := "Karibu Tena",
    "signInToAccount" := "Ingia kwenye akaunti yako kuhifadhi vyumba",
    "email" := "Barua pepe",
    "password" := "Nenosiri",
    "signIn" := "Ingia",
    "signingIn" := "Inaingia...",
    "dontHaveAccount" := "Huna akaunti?",
    "signUp" := "Jisajili",
    "selectDateTime" := "Chagua tarehe, wakati, na muda wa yako",
    "booking" := "uhifadhi",
    "reservation" := "akiba",
    "book" := "Hifadhi",
    "reserve" := "Weka Akiba",
    "date" := "Tarehe",
    "startTime" := "Wakati wa Kuanza",
    "endTime" := "Wakati wa Kumaliza",
    "duration" := "Muda",
    "selectStartTime" := "Chagua wakati wa kuanza",
    "selectEndTime" := "Chagua wakati wa kumaliza",
    "selectDuration" := "Chagua muda",
    "cancel" := "Ghairi",
    "confirmBooking" := "Thibitisha Uhifadhi",
    "confirmReservation" := "Thibitisha Akiba",
    "confirmed" := "Imethibitishwa!",
    "submitting" := "Inatuma...",
    "bookingConfirmed" := "Uhifadhi umethibitishwa! Angalia barua pepe yako kwa maelezo.",
    "allRightsReserved" := "Haki zote zimehifadhiwa.",
    "language" := "Lugha",
    "english" := "Kiingereza",
    "swahili" := "Kiswahili",
    "darkMode" := "Hali ya Giza",
    "lightMode" := "Hali ya Mwanga"
  ]

  /** `translations.sw`. */
  const Sw: map<string, string> := SwForms + SwScreens


  /** `translations[language]`: the table of a language code, if any. */
  function Table(language: string): (r: Option<map<string, string>>)
    ensures r.Some? <==> language == "en" || language == "sw"
  {
    if language == "en" then Some(En)
    else if language == "sw" then Some(Sw)
    else None
  }

  /** All tables list the same keys. */
  ghost predicate KeySetsAgree(table: string -> Option<map<string, string>>)
  {
    forall l1, l2 :: table(l1).Some? && table(l2).Some? ==> table(l1).value.Keys == table(l2).value.Keys
  }

  /** No table maps a key to the empty string. */
  ghost predicate NoBlankEntries(table: string -> Option<map<string, string>>)
  {
    forall l, k :: table(l).Some? && k in table(l).value ==> table(l).value[k] != ""
  }

  lemma ScreensSameKeys()
    ensures EnScreens.Keys == SwScreens.Keys
  {
  }

  lemma FormsSameKeys()
    ensures EnForms.Keys == SwForms.Keys
  {
  }

  /** The two tables have identical key sets: every key present in `en` is
      present in `sw` and vice versa. */
  lemma SymmetricKeySets()
    ensures En.Keys == Sw.Keys
  {
    ScreensSameKeys();
    FormsSameKeys();
  }

  lemma EnScreensNonEmpty() ensures forall k :: k in EnScreens ==> EnScreens[k] != "" {}
  lemma EnFormsNonEmpty() ensures forall k :: k in EnForms ==> EnForms[k] != "" {}
  lemma SwScreensNonEmpty() ensures forall k :: k in SwScreens ==> SwScreens[k] != "" {}
  lemma SwFormsNonEmpty() ensures forall k :: k in SwForms ==> SwForms[k] != "" {}

  /** No table holds an empty string, so a lookup falls back only for a key
      that is missing or a language code that has no table. */
  lemma NoEmptyEntries()
    ensures forall k :: k in En ==> En[k] != ""
    ensures forall k :: k in Sw ==> Sw[k] != ""
  {
    EnScreensNonEmpty();
    EnFormsNonEmpty();
    SwScreensNonEmpty();
    SwFormsNonEmpty();
  }

  /** `en` and `sw`, the only tables, list the same keys. */
  lemma TableKeySetsAgree()
    ensures KeySetsAgree(Table)
  {
    SymmetricKeySets();
  }

  /** No table holds an empty string. */
  lemma TableNoBlankEntries()
    ensures NoBlankEntries(Table)
  {
    NoEmptyEntries();
  }

  lemma EnLogout()
    ensures "logout" in En && En["logout"] == "Logout"
  {
    assert EnScreens["logout"] == "Logout";
  }
  lemma SwLogout()
    ensures "logout" in Sw && Sw["logout"] == "Ondoka"
  {
    assert SwScreens["logout"] == "Ondoka";
  }
  lemma EnReserved()
    ensures "reservedRooms" in En && En["reservedRooms"] == "Reserved Rooms"
  {
    assert EnScreens["reservedRooms"] == "Reserved Rooms";
  }
  lemma EnBooked()
    ensures "bookedRooms" in En && En["bookedRooms"] == "Booked Rooms"
  {
    assert EnScreens["bookedRooms"] == "Booked Rooms";
  }
  lemma SwReserved()
    ensures "reservedRooms" in Sw && Sw["reservedRooms"] == "Vyumba Vilivyohifadhiwa"
  {
    assert SwScreens["reservedRooms"] == "Vyumba Vilivyohifadhiwa";
  }
  lemma SwBooked()
    ensures "bookedRooms" in Sw && Sw["bookedRooms"] == "Vyumba Vilivyohifadhiwa"
  {
    assert SwScreens["bookedRooms"] == "Vyumba Vilivyohifadhiwa";
  }

  /** `sw` gives reserved and booked rooms one and the same string, where `en`
      tells them apart: the `sw` table is not injective. */
  lemma SwahiliNotInjective()
    ensures "reservedRooms" in Sw && "bookedRooms" in Sw
    ensures Sw["reservedRooms"] == Sw["bookedRooms"]
    ensures "reservedRooms" in En && "bookedRooms" in En
    ensures En["reservedRooms"] != En["bookedRooms"]
  {
    EnReserved();
    EnBooked();
    SwReserved();
    SwBooked();
  }
}
