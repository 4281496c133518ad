/** The list updates the admin dashboard applies to its local state. */
module Patches {
  import opened Wrappers
  import opened Records
  import opened Text

  /** `s.filter(keep)`. */
  function Filter<T(==,!new)>(s: seq<T>, keep: T -> bool): (r: seq<T>)
    ensures |r| <= |s|
    ensures forall x :: x in r <==> x in s && keep(x)
  {
    if s == [] then []
    else (if keep(s[0]) then [s[0]] else []) + Filter(s[1..], keep)
  }

  /** Filtering keeps order: it distributes over concatenation. */
  lemma {:induction false} FilterAppend<T(!new)>(a: seq<T>, b: seq<T>, keep: T -> bool)
    ensures Filter(a + b, keep) == Filter(a, keep) + Filter(b, keep)
  {
    if a == [] {
      assert a + b == b;
    } else {
      assert (a + b)[1..] == a[1..] + b;
      FilterAppend(a[1..], b, keep);
    }
  }

  /** When every element is kept the list is unchanged. */
  lemma {:induction false} FilterKeepsAll<T(!new)>(s: seq<T>, keep: T -> bool)
    requires forall i :: 0 <= i < |s| ==> keep(s[i])
    ensures Filter(s, keep) == s
  {
    if s != [] {
      FilterKeepsAll(s[1..], keep);
    }
  }

  /** Filtering by the same test twice is filtering once. */
  lemma {:induction false} FilterIdempotent<T(!new)>(s: seq<T>, keep: T -> bool)
    ensures Filter(Filter(s, keep), keep) == Filter(s, keep)
  {
    if s != [] {
      FilterIdempotent(s[1..], keep);
      FilterAppend(if keep(s[0]) then [s[0]] else [], Filter(s[1..], keep), keep);
    }
  }

  /** The rooms left after deleting room `id`. */
  function WithoutRoom(rooms: seq<Room>, id: int): (r: seq<Room>)
    ensures forall x :: x in r <==> x in rooms && x.id != id
  {
    Filter(rooms, (x: Room) => x.id != id)
  }

  /** Deleting the same room twice leaves what deleting it once left. */
  lemma WithoutRoomIdempotent(rooms: seq<Room>, id: int)
    ensures WithoutRoom(WithoutRoom(rooms, id), id) == WithoutRoom(rooms, id)
  {
    FilterIdempotent(rooms, (x: Room) => x.id != id);
  }

  /** Deleting an id no room carries leaves the rooms as they were. */
  lemma WithoutRoomAbsent(rooms: seq<Room>, id: int)
    requires forall i :: 0 <= i < |rooms| ==> rooms[i].id != id
    ensures WithoutRoom(rooms, id) == rooms
  {
    FilterKeepsAll(rooms, (x: Room) => x.id != id);
  }

  /** The session records left after removing record `id`. */
  function WithoutSession(sessions: seq<SessionRecord>, id: int): (r: seq<SessionRecord>)
    ensures forall x :: x in r <==> x in sessions && x.id != id
  {
    Filter(sessions, (x: SessionRecord) => x.id != id)
  }

  /** Removing the same session record twice is removing it once. */
  lemma WithoutSessionIdempotent(sessions: seq<SessionRecord>, id: int)
    ensures WithoutSession(WithoutSession(sessions, id), id) == WithoutSession(sessions, id)
  {
    FilterIdempotent(sessions, (x: SessionRecord) => x.id != id);
  }

  /** `bookings.map(b => b.id === id ? { ...b, status } : b)`: the bookings
      with that id get the new status, and nothing else changes. */
  function SetStatus(bookings: seq<Booking>, id: int, status: string): (r: seq<Booking>)
    ensures |r| == |bookings|
    ensures forall i :: 0 <= i < |r| ==>
              r[i].status == if bookings[i].id == id then status else bookings[i].status
    ensures forall i :: 0 <= i < |r| ==> r[i].(status := bookings[i].status) == bookings[i]
  {
    if bookings == [] then []
    else
      var b := bookings[0];
      [if b.id == id then b.(status := status) else b] + SetStatus(bookings[1..], id, status)
  }

  /** Setting the same status again changes nothing. */
  lemma SetStatusIdempotent(bookings: seq<Booking>, id: int, status: string)
    ensures SetStatus(SetStatus(bookings, id, status), id, status) == SetStatus(bookings, id, status)
  {
    var once := SetStatus(bookings, id, status);
    var twice := SetStatus(once, id, status);
    assert forall i :: 0 <= i < |twice| ==> twice[i] == once[i];
  }

  /** `bookings.find(b => b.id === id)`: the first booking with that id. */
  function FindBooking(bookings: seq<Booking>, id: int): (r: Option<Booking>)
    ensures r.None? <==> forall i :: 0 <= i < |bookings| ==> bookings[i].id != id
    ensures r.Some? ==> exists i :: 0 <= i < |bookings| && bookings[i] == r.value && r.value.id == id
                                    && forall j :: 0 <= j < i ==> bookings[j].id != id
  {
    if bookings == [] then None
    else if bookings[0].id == id then Some(bookings[0])
    else FindBooking(bookings[1..], id)
  }

  /** Whether a status change of booking `id` makes the dashboard reload
      today's rooms: the booking's date must be present, non-empty and
      contain `today` as a substring. */
  function ShouldReloadRooms(bookings: seq<Booking>, id: int, today: string): (r: bool)
    ensures r ==> exists i :: 0 <= i < |bookings| && bookings[i].id == id
    ensures r <==> exists i :: FirstWithId(bookings, id, i) && Truthy(bookings[i].bookingDate)
                              && exists p :: OccursAt(bookings[i].bookingDate.value, today, p)
  {
    match FindBooking(bookings, id)
    case None => false
    case Some(b) =>
      var found := Truthy(b.bookingDate) && Includes(b.bookingDate.value, today);
      if b.bookingDate.Some? then
        IncludesOccurs(b.bookingDate.value, today);
        FirstWithIdUnique(bookings, id);
        found
      else
        found
  }

  /** `i` is the position of the first booking that carries `id`. */
  predicate FirstWithId(bookings: seq<Booking>, id: int, i: int)
  {
    && 0 <= i < |bookings| && bookings[i].id == id
    && forall j :: 0 <= j < i ==> bookings[j].id != id
  }

  /** There is at most one first position. */
  lemma FirstWithIdUnique(bookings: seq<Booking>, id: int)
    ensures forall i, k :: FirstWithId(bookings, id, i) && FirstWithId(bookings, id, k) ==> i == k
  {
  }

  /** A status change moves no dates, so it does not matter whether the
      reload check reads the bookings before or after the change. */
  lemma {:induction false} ReloadCheckIgnoresStatus(bookings: seq<Booking>, id: int, status: string, today: string)
    ensures ShouldReloadRooms(SetStatus(bookings, id, status), id, today) == ShouldReloadRooms(bookings, id, today)
  {
    if bookings != [] {
      ReloadCheckIgnoresStatus(bookings[1..], id, status, today);
      var b := bookings[0];
      assert SetStatus(bookings, id, status)[1..] == SetStatus(bookings[1..], id, status);
    }
  }
}
