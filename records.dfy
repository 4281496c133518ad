/** The records the front end holds: the signed-in user, rooms, bookings
    and the locally kept session records. */
module Records {
  import opened Wrappers

  /** The cached identity; `role` is absent for ordinary users' payloads
      that carry none. */
  datatype User = User(fullName: string, email: string, role: Option<string>)

  /** `JSON.parse` of a stored user payload, as a parameter of the model:
      `None` when parsing throws. */
  type UserParser = string -> Option<User>

  datatype Room = Room(id: int, name: string, space: string, capacity: int, status: string)

  /** `bookingDate` may be missing from a record; `kind` is `booking` or
      `reservation`; `status` is `pending`, `confirmed` or `rejected`. */
  datatype Booking = Booking(
    id: int,
    userName: string,
    roomName: string,
    bookingDate: Option<string>,
    startTime: string,
    endTime: string,
    kind: string,
    status: string)

  /** A login time as `new Date(loginTime)` sees it: `Missing` for a falsy
      value, `Unparsable` when the date is invalid, otherwise its epoch time
      in milliseconds. */
  datatype Stamp = Missing | Unparsable | Millis(ms: int)

  datatype SessionRecord = SessionRecord(id: int, email: string, loginTime: Stamp, status: string)
}
