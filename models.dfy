/**
 * The records of the booking system (internal/models/models.go and
 * internal/models/templatedata.go), plus the small result types the store
 * and the renderer return instead of Go's `(value, error)` pairs.
 *
 * Dates are whole day numbers: the number of days since 0001-01-01, so that
 * day 0 is Go's zero `time.Time`, the value every unset date field holds.
 * Creation and update timestamps are not modelled.
 */
module Models {

  /** A calendar day, counted from 0001-01-01 (Go's zero time). */
  type Date = int

  /** The range of Go's `int` on the 64-bit platforms the server runs on. */
  const MinInt: int := -0x8000_0000_0000_0000
  const MaxInt: int := 0x7fff_ffff_ffff_ffff

  predicate IsInt(x: int) {
    MinInt <= x <= MaxInt
  }

  /** The two's-complement wrap-around of a Go int operation whose exact
      result is x. */
  function Wrap(x: int): (r: int)
    ensures IsInt(r)
    ensures IsInt(x) ==> r == x
    ensures x == MaxInt + 1 ==> r == MinInt
  {
    (x - MinInt) % 0x1_0000_0000_0000_0000 + MinInt
  }

  datatype Option<T> = None | Some(value: T)

  /** A Go `(value, error)` pair: exactly one of the two is meaningful. */
  datatype Result<T, E> = Ok(value: T) | Err(error: E)

  /** The errors the stores report. */
  datatype DbError =
    | DriverFailure          // connection lost, context deadline exceeded, ...
    | NoRows                 // sql.ErrNoRows: QueryRow matched nothing
    | ScanFailure            // a NULL (from a LEFT JOIN) scanned into an int
    | IncorrectPassword      // bcrypt.ErrMismatchedHashAndPassword
    | HashFailure            // any other bcrypt error (malformed hash, ...)
    | Failed(message: string) // the fake store's canned errors

  datatype User = User(
    id: int,
    accessLevel: int,
    firstName: string,
    lastName: string,
    email: string,
    password: string)

  datatype Room = Room(id: int, roomName: string)

  datatype Reservation = Reservation(
    id: int,
    roomId: int,
    firstName: string,
    lastName: string,
    email: string,
    phone: string,
    room: Room,
    startDate: Date,
    endDate: Date,
    processed: int)

  /** A row of room_restrictions. `restrictionId` is the restriction kind
      (1 = reservation); `reservationId` is 0 for an owner block. */
  datatype RoomRestriction = RoomRestriction(
    id: int,
    roomId: int,
    reservationId: int,
    restrictionId: int,
    startDate: Date,
    endDate: Date)

  /** The body of a notification mail, kept as the values it is formatted from. */
  datatype MailContent =
    | Confirmation(guestFirstName: string, startDate: Date, endDate: Date, roomName: string)
    | OwnerNotice(startDate: Date, endDate: Date, roomName: string)

  datatype MailData = MailData(
    to: string,
    from: string,
    subject: string,
    content: MailContent,
    template: string)

  /** The values a template receives in its `Data` map. */
  datatype Datum =
    | RoomsDatum(rooms: seq<Room>)
    | ReservationDatum(reservation: Reservation)
    | DayMapDatum(days: map<Date, int>)
    | DateDatum(date: Date)

  /** What a template sees of a form: the posted values and the errors. */
  datatype FormView = FormView(values: map<string, seq<string>>, errors: map<string, seq<string>>)

  datatype TemplateData = TemplateData(
    stringMap: map<string, string>,
    intMap: map<string, int>,
    data: map<string, Datum>,
    csrfToken: string,
    flash: string,
    warning: string,
    error: string,
    isAuthenticated: int,
    form: Option<FormView>)

  /** Go's zero values. */
  const NoRoom: Room := Room(0, "")
  const EmptyReservation: Reservation := Reservation(0, 0, "", "", "", "", NoRoom, 0, 0, 0)
  const EmptyTemplateData: TemplateData := TemplateData(map[], map[], map[], "", "", "", "", 0, None)

  /** The half-open overlap test of the availability queries: the window
      [start, end) meets the restriction [r.startDate, r.endDate). */
  predicate Overlaps(start: Date, end: Date, r: RoomRestriction) {
    start < r.endDate && end > r.startDate
  }
}
