/** The administrator dashboard's local state and the operations that change
    it. Each backend request is an `Outcome` input; `confirmed` is the
    answer to the confirmation prompt; alerts are returned as text. */
module AdminDashboard {
  import opened Wrappers
  import opened Storage
  import opened Records
  import opened Patches
  import Navbar
  const ConnectionErrorText := "Error connecting to server"

  /** Where a load stopped: the step whose request or parse threw. */
  datatype LoadStep = RoomsStep | BookingsStep | SessionsStep

  /** What the admin gate effect does on mount. */
  datatype GateDecision = RedirectToLogin | EffectThrows | LoadData

  /** The admin gate: `JSON.parse` of the stored user; an absent key parses to
      null and redirects, a payload that does not parse throws out of the
      effect (no redirect, no load), a user whose role is not `admin`
      redirects, and only an admin's payload loads the data. */
  function Gate(stored: Option<string>, parse: UserParser): (g: GateDecision)
    ensures g == LoadData <==>
              stored.Some? && parse(stored.value).Some? && parse(stored.value).value.role == Some("admin")
    ensures g == EffectThrows <==> stored.Some? && parse(stored.value).None?
  {
    match stored
    case None => RedirectToLogin
    case Some(payload) =>
      match parse(payload)
      case None => EffectThrows
      case Some(user) => if user.role == Some("admin") then LoadData else RedirectToLogin
  }

  /** `JSON.parse(localStorage.getItem('activeSessions')) || []`: an absent
      key gives the empty list; `None` when parsing throws. */
  function StoredSessions(stored: Option<string>, parse: string -> Option<seq<SessionRecord>>): (r: Option<seq<SessionRecord>>)
    ensures stored.None? ==> r == Some([])
    ensures stored.Some? ==> r == parse(stored.value)
  {
    if stored.None? then Some([]) else parse(stored.value)
  }

  /** The verb of a status change: `approve` for `confirmed`, else `reject`. */
  function Action(status: string): (r: string)
    ensures r == "approve" || r == "reject"
    ensures r == "approve" <==> status == "confirmed"
  {
    if status == "confirmed" then "approve" else "reject"
  }

  class Dashboard {
    var rooms: seq<Room>
    var bookings: seq<Booking>
    var activeSessions: seq<SessionRecord>
    var isModalOpen: bool
    var loading: bool
    const store: Store

    /** The initial state: empty lists, modal closed, not loading. */
    constructor (store: Store)
      ensures this.store == store
      ensures rooms == [] && bookings == [] && activeSessions == []
      ensures !isModalOpen && !loading
    {
      this.store := store;
      rooms, bookings, activeSessions := [], [], [];
      isModalOpen, loading := false, false;
    }

    /** `fetchData`: rooms, then bookings, then the stored session records,
        one after the other; the first step that throws ends the load and
        leaves its own and every later collection as it was. `loading` is
        false at the end whatever happened. */
    method FetchData(roomsLoad: Option<seq<Room>>, bookingsLoad: Option<seq<Booking>>,
                     parseSessions: string -> Option<seq<SessionRecord>>)
      returns (failed: Option<LoadStep>)
      modifies this`rooms, this`bookings, this`activeSessions, this`loading
      ensures !loading
      ensures var sessions := StoredSessions(store.Get(SessionsKey), parseSessions);
              failed == if roomsLoad.None? then Some(RoomsStep)
                        else if bookingsLoad.None? then Some(BookingsStep)
                        else if sessions.None? then Some(SessionsStep)
                        else None
      ensures rooms == if roomsLoad.Some? then roomsLoad.value else old(rooms)
      ensures bookings == if roomsLoad.Some? && bookingsLoad.Some? then bookingsLoad.value else old(bookings)
      ensures activeSessions == if failed.None? then StoredSessions(store.Get(SessionsKey), parseSessions).value
                                else old(activeSessions)
    {
      loading := true;
      failed := None;
      if roomsLoad.None? {
        failed := Some(RoomsStep);
      } else {
        rooms := roomsLoad.value;
        if bookingsLoad.None? {
          failed := Some(BookingsStep);
        } else {
          bookings := bookingsLoad.value;
          var sessions := StoredSessions(store.Get(SessionsKey), parseSessions);
          if sessions.None? {
            failed := Some(SessionsStep);
          } else {
            activeSessions := sessions.value;
          }
        }
      }
      loading := false;
    }

    /** The mount effect: the admin gate, then `fetchData` when it lets the
        admin through. The load runs only for an admin. */
    method Open(parseUser: UserParser, roomsLoad: Option<seq<Room>>, bookingsLoad: Option<seq<Booking>>,
                parseSessions: string -> Option<seq<SessionRecord>>)
      returns (decision: GateDecision, failed: Option<LoadStep>)
      modifies this`rooms, this`bookings, this`activeSessions, this`loading
      ensures decision == Gate(store.Get(UserKey), parseUser)
      ensures decision != LoadData ==>
                rooms == old(rooms) && bookings == old(bookings) && activeSessions == old(activeSessions)
                && loading == old(loading) && failed.None?
      ensures decision == LoadData ==> !loading
      ensures decision == LoadData ==>
                var sessions := StoredSessions(store.Get(SessionsKey), parseSessions);
                && failed == (if roomsLoad.None? then Some(RoomsStep)
                              else if bookingsLoad.None? then Some(BookingsStep)
                              else if sessions.None? then Some(SessionsStep)
                              else None)
                && rooms == (if roomsLoad.Some? then roomsLoad.value else old(rooms))
                && bookings == (if roomsLoad.Some? && bookingsLoad.Some? then bookingsLoad.value else old(bookings))
                && activeSessions == (if failed.None? then sessions.value else old(activeSessions))
    {
      decision := Gate(store.Get(UserKey), parseUser);
      failed := None;
      if decision == LoadData {
        failed := FetchData(roomsLoad, bookingsLoad, parseSessions);
      }
    }

    /** `removeSession`: drop the records with that id, keep the others in
        order, and store the new list under `activeSessions` (`stringify` is
        `JSON.stringify`). */
    method RemoveSession(id: int, stringify: seq<SessionRecord> -> string)
      modifies this`activeSessions, store
      ensures activeSessions == WithoutSession(old(activeSessions), id)
      ensures store.entries == old(store.entries)[SessionsKey := stringify(activeSessions)]
    {
      activeSessions := WithoutSession(activeSessions, id);
      store.Set(SessionsKey, stringify(activeSessions));
    }

    /** The dashboard's own `handleLogout`: it forgets the user but, unlike
        the navigation bar's, keeps the stored session records. */
    method Logout() returns (target: string)
      modifies store
      ensures store.entries == old(store.entries) - {UserKey}
      ensures store.Get(SessionsKey) == old(store.Get(SessionsKey))
      ensures target == Navbar.LoginPath
    {
      store.Remove(UserKey);
      target := Navbar.LoginPath;
    }

    /** `deleteRoom`: without confirmation nothing is requested; on an ok
        response the rooms with that id go, the rest keep their order; on a
        failure the rooms stay and the server's error (or a default) or the
        connection error is shown. */
    method DeleteRoom(id: int, confirmed: bool, response: Outcome<()>)
      returns (requested: bool, alert: Option<string>)
      modifies this`rooms
      ensures requested == confirmed
      ensures rooms == if confirmed && response.Ok? then WithoutRoom(old(rooms), id) else old(rooms)
      ensures alert == if !confirmed || response.Ok? then None
                       else if response.Fail? then Some(OrElse(response.msg, "Failed to delete room"))
                       else Some(ConnectionErrorText)
    {
      if !confirmed {
        return false, None;
      }
      requested := true;
      match response {
        case Ok(_) =>
          rooms := WithoutRoom(rooms, id);
          alert := None;
        case Fail(msg) =>
          alert := Some(OrElse(msg, "Failed to delete room"));
        case ConnError =>
          alert := Some(ConnectionErrorText);
      }
    }

    /** `handleAddRoom`: on an ok response the created room goes last and the
        modal closes; otherwise rooms and modal stay as they were. */
    method AddRoom(response: Outcome<Room>) returns (alert: Option<string>)
      modifies this`rooms, this`isModalOpen
      ensures rooms == if response.Ok? then old(rooms) + [response.body] else old(rooms)
      ensures isModalOpen == if response.Ok? then false else old(isModalOpen)
      ensures alert == if response.Ok? then None
                       else if response.Fail? then Some(OrElse(response.msg, "Failed to add room"))
                       else Some(ConnectionErrorText)
    {
      match response {
        case Ok(room) =>
          rooms := rooms + [room];
          isModalOpen := false;
          alert := None;
        case Fail(msg) =>
          alert := Some(OrElse(msg, "Failed to add room"));
        case ConnError =>
          alert := Some(ConnectionErrorText);
      }
    }

    /** `handleUpdateStatus`: after confirmation and an ok response the
        bookings with that id get the new status; then, when the booking's
        date (read from the list as it was before the change) contains
        `today`, today's rooms are fetched once more (`reload`; `None` when
        that fetch throws, which leaves the rooms and shows the connection
        error). Without confirmation nothing is requested; on a failed
        request nothing changes. */
    method UpdateStatus(id: int, status: string, confirmed: bool, response: Outcome<()>,
                        today: string, reload: Option<seq<Room>>)
      returns (requested: bool, reloaded: bool, alert: Option<string>)
      modifies this`bookings, this`rooms
      ensures requested == confirmed
      ensures reloaded <==> confirmed && response.Ok? && ShouldReloadRooms(old(bookings), id, today)
      ensures bookings == if confirmed && response.Ok? then SetStatus(old(bookings), id, status) else old(bookings)
      ensures rooms == if reloaded && reload.Some? then reload.value else old(rooms)
      ensures alert == if !confirmed then None
                       else if response.Ok? then
                         if reloaded && reload.None? then Some(ConnectionErrorText)
                         else Some("Booking " + Action(status) + "d successfully and user notified!")
                       else if response.Fail? then Some(OrElse(response.msg, "Failed to " + Action(status) + " booking"))
                       else Some(ConnectionErrorText)
    {
      var action := Action(status);
      if !confirmed {
        return false, false, None;
      }
      requested := true;
      reloaded := false;
      match response {
        case Ok(_) =>
          var before := bookings;
          bookings := SetStatus(bookings, id, status);
          if ShouldReloadRooms(before, id, today) {
            reloaded := true;
            if reload.None? {
              return true, true, Some(ConnectionErrorText);
            }
            rooms := reload.value;
          }
          alert := Some("Booking " + action + "d successfully and user notified!");
        case Fail(msg) =>
          alert := Some(OrElse(msg, "Failed to " + action + " booking"));
        case ConnError =>
          alert := Some(ConnectionErrorText);
      }
    }
  }
}
