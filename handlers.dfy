/**
 * The booking workflow (internal/handlers/handlers.go): the HTTP handlers as
 * methods of a controller that holds the session of the browser making the
 * request, the store, and an outbox standing for the mail channel.
 *
 * A request is reduced to what the handler reads from it: the parsed form
 * (`None` when ParseForm fails), the query values, or the request URI. What
 * the handler writes back is a `Response`. The booking draft lives in the
 * session slot "reservation" and moves through the handlers
 * PostAvailability -> ChooseRoom / BookRoom -> Reservation -> PostReservation
 * -> Summary, each of which reads the whole draft, changes some fields and
 * writes it back.
 *
 * Collaborators whose code is not part of this model are parameters of the
 * controller: time.Parse and Format with the layout "2006-01-02", the address
 * check of the validator library, the CSRF token of the request, and the
 * calendar arithmetic of the time package.
 */
module Handlers {
  import opened Models
  import opened Text
  import opened Sessions
  import opened Forms
  import opened Render
  import opened Calendar
  import opened PostgresRepo
  import Repository

  const StatusOK: int := 200
  const StatusSeeOther: int := 303
  const StatusTemporaryRedirect: int := 307

  datatype Response =
    | Redirect(location: string, status: int)
    /** A rendered page; `body` is None when nothing was written (the page
        is not in the cache, or executing it failed). */
    | Page(status: int, template: string, body: Option<TemplateData>)
    | Json(ok: bool, message: string, roomId: string, startDate: string, endDate: string)
    /** helpers.ServerError: status 500. */
    | ServerError
    /** A panic, recovered by the router's Recoverer middleware: status 500. */
    | Panicked

  // ---------------------------------------------------------------------------
  // The reservation form

  const ReservationFields: seq<string> := ["first_name", "last_name", "email"]
  const LoginFields: seq<string> := ["email", "password"]

  /** The draft with the guest's details taken from the request's values. */
  function WithGuestDetails(d: Reservation, v: Values): Reservation {
    d.(firstName := FormValue(v, "first_name"), lastName := FormValue(v, "last_name"),
       phone := FormValue(v, "phone"), email := FormValue(v, "email"))
  }

  /** The error map after Required(first_name, last_name, email),
      MinLength(first_name, 3) and IsEmail(email), in that order. Required
      and IsEmail read the form's values `v` (the body); MinLength reads the
      request's r.Form, `r`. */
  function ReservationErrors(v: Values, r: Values, isEmail: string -> bool): Messages {
    var blanks := NoteBlanks(map[], v, ReservationFields);
    var short := if ByteLength(FormValue(r, "first_name")) < 3
                 then Added(blanks, "first_name", MinLengthMessage(3)) else blanks;
    if !isEmail(FormValue(v, "email")) then Added(short, "email", EmailMessage) else short
  }

  /** The guest details the reservation form accepts. */
  predicate DetailsAccepted(v: Values, r: Values, isEmail: string -> bool) {
    && !IsBlank(v, "first_name") && !IsBlank(v, "last_name") && !IsBlank(v, "email")
    && ByteLength(FormValue(r, "first_name")) >= 3
    && isEmail(FormValue(v, "email"))
  }

  /** The reservation form is valid exactly when the details are accepted. */
  lemma ReservationFormValid(v: Values, r: Values, isEmail: string -> bool)
    ensures ReservationErrors(v, r, isEmail) == map[] <==> DetailsAccepted(v, r, isEmail)
  {
    NoBlanks(v, ReservationFields);
    var blanks := NoteBlanks(map[], v, ReservationFields);
    var short := if ByteLength(FormValue(r, "first_name")) < 3
                 then Added(blanks, "first_name", MinLengthMessage(3)) else blanks;
    assert short == map[] <==> blanks == map[] && ByteLength(FormValue(r, "first_name")) >= 3 by {
      if ByteLength(FormValue(r, "first_name")) < 3 { assert "first_name" in short; }
    }
    if !isEmail(FormValue(v, "email")) { assert "email" in ReservationErrors(v, r, isEmail); }
  }

  function LoginErrors(v: Values, isEmail: string -> bool): Messages {
    var blanks := NoteBlanks(map[], v, LoginFields);
    if !isEmail(FormValue(v, "email")) then Added(blanks, "email", EmailMessage) else blanks
  }

  predicate LoginAccepted(v: Values, isEmail: string -> bool) {
    !IsBlank(v, "email") && !IsBlank(v, "password") && isEmail(FormValue(v, "email"))
  }

  /** The login form is valid exactly when both fields are filled in and the
      email is an address. */
  lemma LoginFormValid(v: Values, isEmail: string -> bool)
    ensures LoginErrors(v, isEmail) == map[] <==> LoginAccepted(v, isEmail)
  {
    NoBlanks(v, LoginFields);
    if !isEmail(FormValue(v, "email")) { assert "email" in LoginErrors(v, isEmail); }
  }

  /** An accepted login's email and password were posted in the body, so
      r.Form reads the body's values whatever the query holds. */
  lemma LoginReadsBody(v: Values, query: Values, isEmail: string -> bool)
    requires LoginAccepted(v, isEmail)
    ensures FormValue(Combined(v, query), "email") == FormValue(v, "email")
    ensures FormValue(Combined(v, query), "password") == FormValue(v, "password")
  {
    CombinedFormValue(v, query, "email");
    CombinedFormValue(v, query, "password");
  }

  /** Accepted reservation details were posted in the body, so the names and
      the email the draft gets are the body's; only the phone, which no
      check requires, may come from the query. */
  lemma DetailsReadBody(v: Values, query: Values, isEmail: string -> bool)
    requires DetailsAccepted(v, Combined(v, query), isEmail)
    ensures FormValue(Combined(v, query), "first_name") == FormValue(v, "first_name")
    ensures FormValue(Combined(v, query), "last_name") == FormValue(v, "last_name")
    ensures FormValue(Combined(v, query), "email") == FormValue(v, "email")
  {
    CombinedFormValue(v, query, "first_name");
    CombinedFormValue(v, query, "last_name");
    CombinedFormValue(v, query, "email");
  }

  // ---------------------------------------------------------------------------
  // Booking

  /** The restriction row a booking adds: the stay, on the draft's room, for
      the new reservation, of kind 1 (reservation). */
  function RestrictionFor(d: Reservation, reservationId: int): RoomRestriction {
    RoomRestriction(0, d.roomId, reservationId, 1, d.startDate, d.endDate)
  }

  /** The two notifications of a booking: to the guest, then to the owner. */
  function Mails(d: Reservation): seq<MailData> {
    [ MailData(d.email, "me@here.com", "Reservation confirmation",
               Confirmation(d.firstName, d.startDate, d.endDate, d.room.roomName), "basic.html"),
      MailData("property@owner.com", "me@here.com", "New Reservation",
               OwnerNotice(d.startDate, d.endDate, d.room.roomName), "") ]
  }

  /** The PostgreSQL tables after a booking went through: the reservation
      row, then its restriction row carrying the reservation's new id. */
  function Booked(t: Tables, d: Reservation): Tables {
    var id := t.nextReservationId;
    Repository.AfterRestriction(Repository.AfterReservation(t, d, Ok(id)), RestrictionFor(d, id), Ok(()))
  }

  /** After a booking the room is no longer free over any window that
      overlaps the stay; a window that only touches the stay, and every other
      room, is as free as before. */
  lemma BookingBlocksRoom(t: Tables, d: Reservation, start: Date, end: Date, roomId: int)
    ensures RoomFree(Booked(t, d).restrictions, roomId, start, end)
        <==> RoomFree(t.restrictions, roomId, start, end)
             && !(roomId == d.roomId && start < d.endDate && end > d.startDate)
    ensures |Booked(t, d).reservations| == |t.reservations| + 1
    ensures Booked(t, d).rooms == t.rooms && Booked(t, d).users == t.users
  {
    AddRestrictionEffect(t.restrictions, StoredRestriction(RestrictionFor(d, t.nextReservationId), t.nextRestrictionId),
                         roomId, start, end);
  }

  // ---------------------------------------------------------------------------
  // The calendar

  /** FetchRestrictionsForRoomByDay(roomId, first, last): not part of this
      model, so the handler receives it as a function. */
  type Fetch = (int, Date, Date) -> Result<seq<RoomRestriction>, DbError>

  function LastDay(first: Date, days: int): Date {
    first + days - 1
  }

  /** The index of the first room whose restrictions cannot be fetched
      (|rooms| when every fetch succeeds). */
  function FirstFetchFailure(rooms: seq<Room>, first: Date, days: int, fetch: Fetch): (k: nat)
    ensures k <= |rooms|
    ensures forall j :: 0 <= j < k ==> fetch(rooms[j].id, first, LastDay(first, days)).Ok?
    ensures k < |rooms| ==> fetch(rooms[k].id, first, LastDay(first, days)).Err?
  {
    if rooms == [] then 0
    else if fetch(rooms[0].id, first, LastDay(first, days)).Err? then 0
    else 1 + FirstFetchFailure(rooms[1..], first, days, fetch)
  }

  predicate FetchSucceeds(x: Room, first: Date, days: int, fetch: Fetch) {
    fetch(x.id, first, LastDay(first, days)).Ok?
  }

  /** The restrictions of the first k rooms can all be fetched. */
  predicate FetchesSucceed(rooms: seq<Room>, k: int, first: Date, days: int, fetch: Fetch)
    requires 0 <= k <= |rooms|
  {
    forall j :: 0 <= j < k ==> FetchSucceeds(rooms[j], first, days, fetch)
  }

  /** The failure index is the one place where the fetches stop succeeding. */
  lemma FirstFetchFailureIs(rooms: seq<Room>, first: Date, days: int, fetch: Fetch, k: nat)
    requires k <= |rooms| && FetchesSucceed(rooms, k, first, days, fetch)
    requires k < |rooms| ==> !FetchSucceeds(rooms[k], first, days, fetch)
    ensures FirstFetchFailure(rooms, first, days, fetch) == k
  {
  }

  function RoomRestrictions(room: Room, first: Date, days: int, fetch: Fetch): seq<RoomRestriction> {
    match fetch(room.id, first, LastDay(first, days))
    case Ok(rs) => rs
    case Err(_) => []
  }

  /** The session after the block maps of the rooms are saved, room by room. */
  function StashBlocks(data: map<string, Value>, rooms: seq<Room>, first: Date, days: int, fetch: Fetch): map<string, Value>
    decreases |rooms|
  {
    if rooms == [] then data
    else
      var x := rooms[|rooms| - 1];
      StashBlocks(data, rooms[..|rooms| - 1], first, days, fetch)
        [BlockMapKey(x.id) := BlockMap(FillBlocks(Zeroed(first, days), RoomRestrictions(x, first, days, fetch)))]
  }

  /** The template's data map: both maps of every room. */
  function MapsData(base: map<string, Datum>, rooms: seq<Room>, first: Date, days: int, fetch: Fetch): map<string, Datum>
    decreases |rooms|
  {
    if rooms == [] then base
    else
      var x := rooms[|rooms| - 1];
      var rs := RoomRestrictions(x, first, days, fetch);
      MapsData(base, rooms[..|rooms| - 1], first, days, fetch)
        [ReservationMapKey(x.id) := DayMapDatum(FillReservations(Zeroed(first, days), rs))]
        [BlockMapKey(x.id) := DayMapDatum(FillBlocks(Zeroed(first, days), rs))]
  }

  predicate DistinctIds(rooms: seq<Room>) {
    forall i, j :: 0 <= i < j < |rooms| ==> rooms[i].id != rooms[j].id
  }

  predicate IntIds(rooms: seq<Room>) {
    forall i :: 0 <= i < |rooms| ==> IsInt(rooms[i].id)
  }

  /** With distinct room ids, each room's block map is found in the session
      under "block_map_<id>". */
  lemma {:induction false} StashedBlockMap(data: map<string, Value>, rooms: seq<Room>, first: Date, days: int,
                                           fetch: Fetch, k: int)
    requires DistinctIds(rooms) && IntIds(rooms) && 0 <= k < |rooms|
    ensures BlockMapKey(rooms[k].id) in StashBlocks(data, rooms, first, days, fetch)
    ensures StashBlocks(data, rooms, first, days, fetch)[BlockMapKey(rooms[k].id)]
            == BlockMap(FillBlocks(Zeroed(first, days), RoomRestrictions(rooms[k], first, days, fetch)))
    decreases |rooms|
  {
    var init := rooms[..|rooms| - 1];
    if k < |rooms| - 1 {
      assert init[k] == rooms[k];
      assert DistinctIds(init) && IntIds(init);
      StashedBlockMap(data, init, first, days, fetch, k);
      MapKeysDistinct(rooms[k].id, rooms[|rooms| - 1].id);
    }
  }

  /** A key that is no room's block map key keeps its old value. */
  lemma {:induction false} StashKeepsKey(data: map<string, Value>, rooms: seq<Room>, first: Date, days: int,
                                         fetch: Fetch, key: string)
    requires forall k :: 0 <= k < |rooms| ==> key != BlockMapKey(rooms[k].id)
    ensures key in StashBlocks(data, rooms, first, days, fetch) <==> key in data
    ensures key in data ==> StashBlocks(data, rooms, first, days, fetch)[key] == data[key]
    decreases |rooms|
  {
    if rooms != [] {
      var init := rooms[..|rooms| - 1];
      assert key != BlockMapKey(rooms[|rooms| - 1].id);
      forall k | 0 <= k < |init| ensures key != BlockMapKey(init[k].id) {
        assert init[k] == rooms[k];
      }
      StashKeepsKey(data, init, first, days, fetch, key);
    }
  }

  /** The month the calendar shows: the query's y and m when y is given
      (both must be integers), otherwise the current year and month. */
  function MonthOf(query: Values, now: (int, int)): Option<(int, int)> {
    if FormValue(query, "y") == "" then Some(now)
    else match (Atoi(FormValue(query, "y")), Atoi(FormValue(query, "m")))
      case (Some(y), Some(m)) => Some((y, m))
      case _ => None
  }

  // ---------------------------------------------------------------------------
  // The controller

  class Controller {
    const session: Session
    const db: Repository.DbRepo
    /** Notifications handed to the mail channel, oldest first. */
    var outbox: seq<MailData>
    /** The names of the pages in the template cache. */
    const cache: set<string>
    /** nosurf.Token of the request. */
    const csrfToken: string
    /** time.Parse("2006-01-02", s). */
    const parseDate: string -> Option<Date>
    /** t.Format("2006-01-02"). */
    const formatDate: Date -> string
    /** The validator library's address check. */
    const isEmail: string -> bool
    /** The first day of a year and month, and the number of days in it
        (the date arithmetic of the time package). */
    const firstOfMonth: (int, int) -> Date
    const daysInMonth: (int, int) -> int

    ghost predicate Valid()
      reads this, Repository.Footprint(db)
    {
      Repository.Valid(db)
    }

    constructor (session: Session, db: Repository.DbRepo, cache: set<string>, csrfToken: string,
                 parseDate: string -> Option<Date>, formatDate: Date -> string, isEmail: string -> bool,
                 firstOfMonth: (int, int) -> Date, daysInMonth: (int, int) -> int)
      ensures this.session == session && this.db == db && this.cache == cache
      ensures this.csrfToken == csrfToken && this.parseDate == parseDate && this.formatDate == formatDate
      ensures this.isEmail == isEmail && this.firstOfMonth == firstOfMonth && this.daysInMonth == daysInMonth
      ensures outbox == []
    {
      this.session := session;
      this.db := db;
      this.cache := cache;
      this.csrfToken := csrfToken;
      this.parseDate := parseDate;
      this.formatDate := formatDate;
      this.isEmail := isEmail;
      this.firstOfMonth := firstOfMonth;
      this.daysInMonth := daysInMonth;
      this.outbox := [];
    }

    /** resp is the page `name` rendered with td by render.Template, taking
        the session from `before` to `after`. */
    predicate Shown(resp: Response, status: int, name: string, td: TemplateData,
                    before: map<string, Value>, after: map<string, Value>)
    {
      && resp.Page? && resp.status == status && resp.template == name
      && (name in cache ==> after == Popped(before)
                            && (resp.body.Some? ==> resp.body.value == DefaultData(td, before, csrfToken)))
      && (name !in cache ==> after == before && resp.body.None?)
    }

    method Show(status: int, name: string, td: TemplateData) returns (resp: Response)
      modifies session
      ensures Shown(resp, status, name, td, old(session.data), session.data)
    {
      var r := Render.Template(session, cache, name, td, csrfToken);
      resp := Page(status, name, if r.Ok? then Some(r.value) else None);
    }

    /** Put "error" and redirect: how every handler reports a failure. */
    method Fail(message: string, location: string, status: int) returns (resp: Response)
      modifies session
      ensures resp == Redirect(location, status)
      ensures session.data == old(session.data)[ErrorKey := Str(message)]
    {
      session.Put(ErrorKey, Str(message));
      resp := Redirect(location, status);
    }

    function StayStrings(d: Reservation): map<string, string> {
      map["start_date" := formatDate(d.startDate), "end_date" := formatDate(d.endDate)]
    }

    /** POST /search_availability. `form` is r.Form, the body's values
        followed by the query's (None when ParseForm fails). */
    method PostAvailability(form: Option<Values>) returns (resp: Response)
      modifies session
      ensures form.None? ==> resp == Redirect("/", StatusTemporaryRedirect)
                             && session.data == old(session.data)[ErrorKey := Str("can't parse form")]
      ensures form.Some? && parseDate(FormValue(form.value, "start")).None?
              ==> resp == Redirect("/", StatusTemporaryRedirect)
                  && session.data == old(session.data)[ErrorKey := Str("can't parse start date")]
      ensures form.Some? && parseDate(FormValue(form.value, "start")).Some?
              && parseDate(FormValue(form.value, "end")).None?
              ==> resp == Redirect("/", StatusTemporaryRedirect)
                  && session.data == old(session.data)[ErrorKey := Str("can't get parse end date")]
      ensures form.Some? && parseDate(FormValue(form.value, "start")).Some?
              && parseDate(FormValue(form.value, "end")).Some?
              ==> var start := parseDate(FormValue(form.value, "start")).value;
                  var end := parseDate(FormValue(form.value, "end")).value;
                  var answer := Repository.AllRoomsAnswer(db, start, end);
                  || ((answer.Err? || db.Postgres?) && resp == Redirect("/", StatusTemporaryRedirect)
                      && session.data == old(session.data)[ErrorKey := Str("can't query database")])
                  || (answer.Ok? && answer.value == [] && resp == Redirect("/search_availability", StatusSeeOther)
                      && session.data == old(session.data)[ErrorKey := Str("No availability")])
                  || (answer.Ok? && answer.value != []
                      && Shown(resp, StatusOK, "choose_room.page.tmpl",
                               EmptyTemplateData.(data := map["rooms" := RoomsDatum(answer.value)]),
                               old(session.data)[DraftKey := Draft(EmptyReservation.(startDate := start, endDate := end))],
                               session.data))
    {
      if form.None? {
        resp := Fail("can't parse form", "/", StatusTemporaryRedirect);
        return;
      }
      var startDate := parseDate(FormValue(form.value, "start"));
      if startDate.None? {
        resp := Fail("can't parse start date", "/", StatusTemporaryRedirect);
        return;
      }
      var endDate := parseDate(FormValue(form.value, "end"));
      if endDate.None? {
        resp := Fail("can't get parse end date", "/", StatusTemporaryRedirect);
        return;
      }
      var rooms := Repository.SearchAvailabilityAllRooms(db, startDate.value, endDate.value);
      if rooms.Err? {
        resp := Fail("can't query database", "/", StatusTemporaryRedirect);
        return;
      }
      if |rooms.value| == 0 {
        resp := Fail("No availability", "/search_availability", StatusSeeOther);
        return;
      }
      var res := EmptyReservation.(startDate := startDate.value, endDate := endDate.value);
      session.Put(DraftKey, Draft(res));
      resp := Show(StatusOK, "choose_room.page.tmpl", EmptyTemplateData.(data := map["rooms" := RoomsDatum(rooms.value)]));
    }

    /** POST /search_availability-json: whether one room is free, as JSON.
        `form` is r.Form, as for PostAvailability. */
    method AvailabilityJSON(form: Option<Values>) returns (resp: Response)
      modifies session
      ensures form.None? ==> resp == Json(false, "Internal server error", "", "", "")
                             && session.data == old(session.data)
      ensures form.Some? && parseDate(FormValue(form.value, "start")).None?
              ==> resp == Redirect("/", StatusTemporaryRedirect)
                  && session.data == old(session.data)[ErrorKey := Str("can't parse start date")]
      ensures form.Some? && parseDate(FormValue(form.value, "start")).Some?
              && parseDate(FormValue(form.value, "end")).None?
              ==> resp == Redirect("/", StatusTemporaryRedirect)
                  && session.data == old(session.data)[ErrorKey := Str("can't parse end date")]
      ensures form.Some? && parseDate(FormValue(form.value, "start")).Some?
              && parseDate(FormValue(form.value, "end")).Some?
              && Atoi(FormValue(form.value, "room_id")).None?
              ==> resp == Redirect("/", StatusTemporaryRedirect)
                  && session.data == old(session.data)[ErrorKey := Str("type conversion failed for string to integer")]
      ensures form.Some? && parseDate(FormValue(form.value, "start")).Some?
              && parseDate(FormValue(form.value, "end")).Some?
              && Atoi(FormValue(form.value, "room_id")).Some?
              ==> var sd := FormValue(form.value, "start");
                  var ed := FormValue(form.value, "end");
                  var roomId := Atoi(FormValue(form.value, "room_id")).value;
                  var answer := Repository.AvailabilityAnswer(db, parseDate(sd).value, parseDate(ed).value, roomId);
                  session.data == old(session.data)
                  && (|| ((answer.Err? || db.Postgres?) && resp == Json(false, "", "", "", ""))
                      || (answer.Ok? && resp == Json(answer.value, "", Itoa(roomId), sd, ed)))
    {
      if form.None? {
        return Json(false, "Internal server error", "", "", "");
      }
      var sd := FormValue(form.value, "start");
      var ed := FormValue(form.value, "end");
      var startDate := parseDate(sd);
      if startDate.None? {
        resp := Fail("can't parse start date", "/", StatusTemporaryRedirect);
        return;
      }
      var endDate := parseDate(ed);
      if endDate.None? {
        resp := Fail("can't parse end date", "/", StatusTemporaryRedirect);
        return;
      }
      var roomId := Atoi(FormValue(form.value, "room_id"));
      if roomId.None? {
        resp := Fail("type conversion failed for string to integer", "/", StatusTemporaryRedirect);
        return;
      }
      var available := Repository.SearchAvailabilityByRoomID(db, startDate.value, endDate.value, roomId.value);
      if available.Err? {
        return Json(false, "", "", "", "");
      }
      resp := Json(available.value, "", Itoa(roomId.value), sd, ed);
    }

    function MakeReservationPage(d: Reservation): TemplateData {
      EmptyTemplateData.(stringMap := StayStrings(d), data := map["reservation" := ReservationDatum(d)],
                         form := Some(FormView(map[], map[])))
    }

    /** GET /make_reservation: the draft gets its room's name and the
        reservation form is shown. */
    method Reservation() returns (resp: Response)
      modifies session
      ensures old(session.GetDraft()).None?
              ==> resp == Redirect("/", StatusTemporaryRedirect)
                  && session.data == old(session.data)[ErrorKey := Str("can't get reservation from session")]
      ensures old(session.GetDraft()).Some?
              ==> var d := old(session.GetDraft()).value;
                  var answer := Repository.RoomByIdAnswer(db, d.roomId);
                  || ((answer.Err? || db.Postgres?) && resp == Redirect("/", StatusTemporaryRedirect)
                      && session.data == old(session.data)[ErrorKey := Str("can't find room")])
                  || (answer.Ok?
                      && var named := d.(room := d.room.(roomName := answer.value.roomName));
                         Shown(resp, StatusOK, "make_reservation.page.tmpl", MakeReservationPage(named),
                               old(session.data)[DraftKey := Draft(named)], session.data))
    {
      var res := session.GetDraft();
      if res.None? {
        resp := Fail("can't get reservation from session", "/", StatusTemporaryRedirect);
        return;
      }
      var room := Repository.GetRoomById(db, res.value.roomId);
      if room.Err? {
        resp := Fail("can't find room", "/", StatusTemporaryRedirect);
        return;
      }
      var named := res.value.(room := res.value.room.(roomName := room.value.roomName));
      session.Put(DraftKey, Draft(named));
      resp := Show(StatusOK, "make_reservation.page.tmpl", MakeReservationPage(named));
    }

    /** The checks PostReservation runs on a new form over the posted
        values `v`: Required(first_name, last_name, email), MinLength(first_name,
        3) on the request's r.Form `r`, IsEmail(email), then Valid. */
    method CheckGuestDetails(v: Values, r: Values) returns (valid: bool, errors: Messages)
      ensures errors == ReservationErrors(v, r, isEmail)
      ensures valid <==> DetailsAccepted(v, r, isEmail)
    {
      var f := new Form(v);
      f.Required(ReservationFields);
      var longEnough := f.MinLength("first_name", 3, r);
      f.IsEmail("email", isEmail);
      valid := f.Valid();
      errors := f.errors.messages;
      ReservationFormValid(v, r, isEmail);
    }

    /** The two inserts of a booking: the reservation, then the restriction
        carrying the reservation's new id. The answer is the message the
        handler reports, None when both went through. Nothing undoes the
        reservation row when the restriction insert fails. */
    method StoreBooking(d: Reservation) returns (failure: Option<string>)
      requires Valid()
      modifies Repository.Footprint(db)
      ensures Valid()
      ensures var t := old(Repository.Snapshot(db));
              || (failure == None && (db.Postgres? ==> Repository.Snapshot(db) == Booked(t, d)))
              || (failure == Some("can't insert reservation into database!") && Repository.Snapshot(db) == t)
              || (failure == Some("can't insert room restriction!")
                  && (db.Postgres? ==> Repository.Snapshot(db) == Repository.AfterReservation(t, d, Ok(t.nextReservationId))))
      ensures db.TestRepo? ==> (d.roomId == 4 ==> failure == Some("can't insert reservation into database!"))
                               && (d.roomId == 3 ==> failure == Some("can't insert room restriction!"))
                               && (failure == None <==> d.roomId != 4 && d.roomId != 3)
    {
      var newId := Repository.InsertReservation(db, d);
      if newId.Err? {
        return Some("can't insert reservation into database!");
      }
      var inserted := Repository.InsertRoomRestriction(db, RestrictionFor(d, newId.value));
      if inserted.Err? {
        return Some("can't insert room restriction!");
      }
      failure := None;
    }

    /** How a booking of d with accepted details ends, taking the session,
        the outbox and the tables from their `before` to their `after` values:
        either both inserts went through, the guest and the owner are mailed
        and the draft holds d, or one insert failed and the handler says so. */
    predicate BookingOutcome(resp: Response, d: Reservation,
                             before: map<string, Value>, after: map<string, Value>,
                             outboxBefore: seq<MailData>, outboxAfter: seq<MailData>,
                             tablesBefore: Tables, tablesAfter: Tables)
    {
      || (resp == Redirect("/reservation_summary", StatusSeeOther)
          && after == before[DraftKey := Draft(d)]
          && outboxAfter == outboxBefore + Mails(d)
          && (db.Postgres? ==> tablesAfter == Booked(tablesBefore, d)))
      || (resp == Redirect("/", StatusTemporaryRedirect) && outboxAfter == outboxBefore
          && ((after == before[ErrorKey := Str("can't insert reservation into database!")]
               && tablesAfter == tablesBefore)
              || (after == before[ErrorKey := Str("can't insert room restriction!")]
                  && (db.Postgres?
                      ==> tablesAfter == Repository.AfterReservation(tablesBefore, d, Ok(tablesBefore.nextReservationId))))))
    }

    /** What the fake store makes of a booking: room 4 fails the first insert,
        room 3 the second, every other room goes through. */
    predicate FakeBookingOutcome(resp: Response, d: Reservation, before: map<string, Value>, after: map<string, Value>) {
      && (d.roomId == 4 ==> after == before[ErrorKey := Str("can't insert reservation into database!")])
      && (d.roomId == 3 ==> after == before[ErrorKey := Str("can't insert room restriction!")])
      && (resp == Redirect("/reservation_summary", StatusSeeOther) <==> d.roomId != 4 && d.roomId != 3)
    }

    /** The part of PostReservation after the form was accepted. */
    method Book(d: Reservation) returns (resp: Response)
      requires Valid()
      modifies session, this, Repository.Footprint(db)
      ensures Valid()
      ensures BookingOutcome(resp, d, old(session.data), session.data, old(outbox), outbox,
                             old(Repository.Snapshot(db)), Repository.Snapshot(db))
      ensures db.TestRepo? ==> FakeBookingOutcome(resp, d, old(session.data), session.data)
    {
      var failure := StoreBooking(d);
      if failure.Some? {
        resp := Fail(failure.value, "/", StatusTemporaryRedirect);
        return;
      }
      var mails := Mails(d);
      outbox := outbox + [mails[0]];
      outbox := outbox + [mails[1]];
      assert outbox == old(outbox) + mails;
      session.Put(DraftKey, Draft(d));
      resp := Redirect("/reservation_summary", StatusSeeOther);
    }

    /** POST /make_reservation: validate the guest's details, store the
        reservation and its restriction, send the two notifications. `form`
        is r.PostForm, the values of the body (None when ParseForm fails);
        the details copied into the draft, and the value MinLength checks,
        are read from r.Form, the body's values followed by those of the URL
        `query`; the other checks run on the body's values alone. */
    method PostReservation(form: Option<Values>, query: Values) returns (resp: Response)
      requires Valid()
      modifies session, this, Repository.Footprint(db)
      ensures Valid()
      ensures old(session.GetDraft()).None?
              ==> resp == Redirect("/", StatusTemporaryRedirect)
                  && session.data == old(session.data)[ErrorKey := Str("can't get reservation from session")]
                  && outbox == old(outbox) && Repository.Snapshot(db) == old(Repository.Snapshot(db))
      ensures old(session.GetDraft()).Some? && form.None?
              ==> resp == Redirect("/", StatusTemporaryRedirect)
                  && session.data == old(session.data)[ErrorKey := Str("can't parse form")]
                  && outbox == old(outbox) && Repository.Snapshot(db) == old(Repository.Snapshot(db))
      ensures old(session.GetDraft()).Some? && form.Some? && !DetailsAccepted(form.value, Combined(form.value, query), isEmail)
              ==> var d := WithGuestDetails(old(session.GetDraft()).value, Combined(form.value, query));
                  Shown(resp, StatusSeeOther, "make_reservation.page.tmpl",
                        EmptyTemplateData.(data := map["reservation" := ReservationDatum(d)],
                                           form := Some(FormView(form.value, ReservationErrors(form.value, Combined(form.value, query), isEmail)))),
                        old(session.data), session.data)
                  && outbox == old(outbox) && Repository.Snapshot(db) == old(Repository.Snapshot(db))
      ensures old(session.GetDraft()).Some? && form.Some? && DetailsAccepted(form.value, Combined(form.value, query), isEmail)
              ==> var d := WithGuestDetails(old(session.GetDraft()).value, Combined(form.value, query));
                  && BookingOutcome(resp, d, old(session.data), session.data, old(outbox), outbox,
                                    old(Repository.Snapshot(db)), Repository.Snapshot(db))
                  && (db.TestRepo? ==> FakeBookingOutcome(resp, d, old(session.data), session.data))
    {
      var draft := session.GetDraft();
      if draft.None? {
        resp := Fail("can't get reservation from session", "/", StatusTemporaryRedirect);
        return;
      }
      if form.None? {
        resp := Fail("can't parse form", "/", StatusTemporaryRedirect);
        return;
      }
      var request := Combined(form.value, query);
      var reservation := WithGuestDetails(draft.value, request);
      var valid, errors := CheckGuestDetails(form.value, request);
      if !valid {
        var td := EmptyTemplateData.(data := map["reservation" := ReservationDatum(reservation)],
                                     form := Some(FormView(form.value, errors)));
        resp := Show(StatusSeeOther, "make_reservation.page.tmpl", td);
        return;
      }
      resp := Book(reservation);
    }

    function SummaryPage(d: Reservation): TemplateData {
      EmptyTemplateData.(stringMap := StayStrings(d), data := map["reservation" := ReservationDatum(d)])
    }

    /** GET /reservation_summary: show the booking and drop the draft. */
    method Summary() returns (resp: Response)
      modifies session
      ensures old(session.GetDraft()).None?
              ==> resp == Redirect("/", StatusSeeOther)
                  && session.data == old(session.data)[ErrorKey := Str("Unable to get reservation from session")]
      ensures old(session.GetDraft()).Some?
              ==> Shown(resp, StatusOK, "reservation_summary.page.tmpl", SummaryPage(old(session.GetDraft()).value),
                        old(session.data) - {DraftKey}, session.data)
    {
      var reservation := session.GetDraft();
      if reservation.None? {
        resp := Fail("Unable to get reservation from session", "/", StatusSeeOther);
        return;
      }
      session.Remove(DraftKey);
      resp := Show(StatusOK, "reservation_summary.page.tmpl", SummaryPage(reservation.value));
    }

    /** GET /choose_room/{id}: the room id is the third piece of the request
        URI split on "/". */
    method ChooseRoom(uri: string) returns (resp: Response)
      modifies session
      ensures |Split(uri, '/')| < 3 ==> resp == Panicked && session.data == old(session.data)
      ensures |Split(uri, '/')| >= 3 && Atoi(Split(uri, '/')[2]).None?
              ==> resp == Redirect("/", StatusSeeOther)
                  && session.data == old(session.data)[ErrorKey := Str("Unable to get room ID from URL")]
      ensures |Split(uri, '/')| >= 3 && Atoi(Split(uri, '/')[2]).Some? && old(session.GetDraft()).None?
              ==> resp == Redirect("/", StatusSeeOther)
                  && session.data == old(session.data)[ErrorKey := Str("Unable to get reservation from session")]
      ensures |Split(uri, '/')| >= 3 && Atoi(Split(uri, '/')[2]).Some? && old(session.GetDraft()).Some?
              ==> resp == Redirect("/make_reservation", StatusSeeOther)
                  && session.data == old(session.data)[DraftKey :=
                       Draft(old(session.GetDraft()).value.(roomId := Atoi(Split(uri, '/')[2]).value))]
    {
      var exploded := Split(uri, '/');
      if |exploded| < 3 {
        return Panicked;
      }
      var roomId := Atoi(exploded[2]);
      if roomId.None? {
        resp := Fail("Unable to get room ID from URL", "/", StatusSeeOther);
        return;
      }
      var res := session.GetDraft();
      if res.None? {
        resp := Fail("Unable to get reservation from session", "/", StatusSeeOther);
        return;
      }
      session.Put(DraftKey, Draft(res.value.(roomId := roomId.value)));
      resp := Redirect("/make_reservation", StatusSeeOther);
    }

    /** A date from the query; time.Parse answers the zero time on failure,
        and BookRoom ignores the error. */
    function DateOrZero(s: string): Date {
      match parseDate(s)
      case Some(d) => d
      case None => 0
    }

    /** GET /book_room?id=&s=&e=: start a fresh draft for one room. */
    method BookRoom(query: Values) returns (resp: Response)
      modifies session
      ensures Atoi(FormValue(query, "id")).None?
              ==> resp == Redirect("/", StatusSeeOther)
                  && session.data == old(session.data)[ErrorKey := Str("Unable to get parameter from URL")]
      ensures Atoi(FormValue(query, "id")).Some?
              ==> var id := Atoi(FormValue(query, "id")).value;
                  var answer := Repository.RoomByIdAnswer(db, id);
                  || ((answer.Err? || db.Postgres?) && resp == Redirect("/", StatusSeeOther)
                      && session.data == old(session.data)[ErrorKey := Str("Unable to get room from database")])
                  || (answer.Ok? && resp == Redirect("make_reservation", StatusSeeOther)
                      && session.data == old(session.data)[DraftKey := Draft(EmptyReservation.(
                           roomId := id,
                           startDate := DateOrZero(FormValue(query, "s")),
                           endDate := DateOrZero(FormValue(query, "e")),
                           room := NoRoom.(roomName := answer.value.roomName)))])
    {
      var roomId := Atoi(FormValue(query, "id"));
      if roomId.None? {
        resp := Fail("Unable to get parameter from URL", "/", StatusSeeOther);
        return;
      }
      var startDate := DateOrZero(FormValue(query, "s"));
      var endDate := DateOrZero(FormValue(query, "e"));
      var room := Repository.GetRoomById(db, roomId.value);
      if room.Err? {
        resp := Fail("Unable to get room from database", "/", StatusSeeOther);
        return;
      }
      var res := EmptyReservation.(roomId := roomId.value, startDate := startDate, endDate := endDate,
                                   room := NoRoom.(roomName := room.value.roomName));
      session.Put(DraftKey, Draft(res));
      resp := Redirect("make_reservation", StatusSeeOther);
    }

    /** The checks PostLogin runs: Required(email, password), IsEmail(email),
        then Valid. */
    method CheckLogin(v: Values) returns (valid: bool, errors: Messages)
      ensures errors == LoginErrors(v, isEmail)
      ensures valid <==> LoginAccepted(v, isEmail)
    {
      var f := new Form(v);
      f.Required(LoginFields);
      f.IsEmail("email", isEmail);
      valid := f.Valid();
      errors := f.errors.messages;
      LoginFormValid(v, isEmail);
    }

    /** POST /user/login. A form that fails to parse is only logged; the
        handler goes on with the values it has. `v` is r.PostForm: the email
        and password are read from r.Form, but they only reach Authenticate
        when the checks on the body found both present, and then r.Form's
        first values are the body's (LoginReadsBody). */
    method PostLogin(v: Values) returns (resp: Response)
      modifies session
      ensures !LoginAccepted(v, isEmail)
              ==> Shown(resp, StatusOK, "login.page.tmpl",
                        EmptyTemplateData.(form := Some(FormView(v, LoginErrors(v, isEmail)))),
                        old(session.data), session.data)
      ensures LoginAccepted(v, isEmail)
              ==> || (resp == Redirect("/user/login", StatusSeeOther)
                      && session.data == old(session.data)[ErrorKey := Str("invalid login credentials")])
                  || (resp == Redirect("/", StatusSeeOther)
                      && UserIdKey in session.data && session.data[UserIdKey].Int?
                      && session.data == old(session.data)[UserIdKey := session.data[UserIdKey]]
                                                          [FlashKey := Str("Successfully logged in")])
      ensures LoginAccepted(v, isEmail) && db.Postgres?
              ==> var answer := AuthenticateAnswer(db.pg.users, db.pg.compareHash, FormValue(v, "email"), FormValue(v, "password"));
                  (answer.Err? ==> resp == Redirect("/user/login", StatusSeeOther))
                  && (resp == Redirect("/", StatusSeeOther) ==> answer.Ok? && session.data[UserIdKey] == Int(answer.value.0))
    {
      var email := FormValue(v, "email");
      var password := FormValue(v, "password");
      var valid, errors := CheckLogin(v);
      if !valid {
        resp := Show(StatusOK, "login.page.tmpl", EmptyTemplateData.(form := Some(FormView(v, errors))));
        return;
      }
      var auth := Repository.Authenticate(db, email, password);
      if auth.Err? {
        resp := Fail("invalid login credentials", "/user/login", StatusSeeOther);
        return;
      }
      session.Put(UserIdKey, Int(auth.value.0));
      session.Put(FlashKey, Str("Successfully logged in"));
      resp := Redirect("/", StatusSeeOther);
    }

    function CalendarPage(rooms: seq<Room>, first: Date, days: int, fetch: Fetch): TemplateData {
      EmptyTemplateData.(intMap := map["days_in_month" := days],
                         data := MapsData(map["rooms" := RoomsDatum(rooms)], rooms, first, days, fetch))
    }

    /** One room's two maps for the month, from its restrictions. */
    method RoomDayMaps(x: Room, first: Date, days: int, fetch: Fetch)
      returns (fetched: bool, resMap: map<Date, int>, blockMap: map<Date, int>)
      ensures fetched <==> FetchSucceeds(x, first, days, fetch)
      ensures resMap == FillReservations(Zeroed(first, days), RoomRestrictions(x, first, days, fetch))
      ensures blockMap == FillBlocks(Zeroed(first, days), RoomRestrictions(x, first, days, fetch))
    {
      var restrictions := fetch(x.id, first, LastDay(first, days));
      fetched := restrictions.Ok?;
      resMap, blockMap := BuildDayMaps(first, days, if fetched then restrictions.value else []);
    }

    /** The handler's loop over the rooms: fetch each room's restrictions for
        the month, build its two maps, put both in the template data and save
        the block map in the session; stop at the first fetch that fails,
        answering its index in k. */
    method CollectDayMaps(rooms: seq<Room>, first: Date, days: int, fetch: Fetch)
      returns (data: map<string, Datum>, k: nat)
      modifies session
      ensures k <= |rooms| && FetchesSucceed(rooms, k, first, days, fetch)
      ensures k < |rooms| ==> !FetchSucceeds(rooms[k], first, days, fetch)
      ensures session.data == StashBlocks(old(session.data), rooms[..k], first, days, fetch)
      ensures k == |rooms| ==> data == MapsData(map["rooms" := RoomsDatum(rooms)], rooms, first, days, fetch)
    {
      ghost var before := session.data;
      var base := map["rooms" := RoomsDatum(rooms)];
      data := base;
      var i := 0;
      while i < |rooms|
        invariant 0 <= i <= |rooms|
        invariant FetchesSucceed(rooms, i, first, days, fetch)
        invariant session.data == StashBlocks(before, rooms[..i], first, days, fetch)
        invariant data == MapsData(base, rooms[..i], first, days, fetch)
      {
        var x := rooms[i];
        var fetched, resMap, blockMap := RoomDayMaps(x, first, days, fetch);
        if !fetched {
          return data, i;
        }
        assert rooms[..i + 1][..i] == rooms[..i] && rooms[..i + 1][i] == x;
        data := data[ReservationMapKey(x.id) := DayMapDatum(resMap)];
        data := data[BlockMapKey(x.id) := DayMapDatum(blockMap)];
        session.Put(BlockMapKey(x.id), BlockMap(blockMap));
        i := i + 1;
      }
      assert rooms[..i] == rooms;
      k := i;
    }

    /** GET /admin/reservations_calendar?y=&m=: the day maps of every room
        for one month. AllRooms and FetchRestrictionsForRoomByDay are not
        part of this model: their answers are parameters. */
    method AdminReservationsCalendar(query: Values, now: (int, int), allRooms: Result<seq<Room>, DbError>, fetch: Fetch)
      returns (resp: Response)
      modifies session
      ensures MonthOf(query, now).None?
              ==> resp == ServerError
                  && session.data == old(session.data)[ErrorKey := Str("could not convert type string to int")]
      ensures MonthOf(query, now).Some? && allRooms.Err?
              ==> resp == ServerError
                  && session.data == old(session.data)[ErrorKey := Str("could not fetch room data from database")]
      ensures MonthOf(query, now).Some? && allRooms.Ok?
              ==> var month := MonthOf(query, now).value;
                  var first := firstOfMonth(month.0, month.1);
                  var days := daysInMonth(month.0, month.1);
                  var rooms := allRooms.value;
                  var k := FirstFetchFailure(rooms, first, days, fetch);
                  && (k < |rooms|
                      ==> (resp == ServerError
                           && session.data == StashBlocks(old(session.data), rooms[..k], first, days, fetch)
                                                [ErrorKey := Str("could not fetch room restrictions from database")]))
                  && (k == |rooms|
                      ==> Shown(resp, StatusOK, "admin_reservations_calendar.page.tmpl",
                                CalendarPage(rooms, first, days, fetch),
                                StashBlocks(old(session.data), rooms, first, days, fetch), session.data))
    {
      var month := MonthOf(query, now);
      if month.None? {
        session.Put(ErrorKey, Str("could not convert type string to int"));
        return ServerError;
      }
      var first := firstOfMonth(month.value.0, month.value.1);
      var days := daysInMonth(month.value.0, month.value.1);
      if allRooms.Err? {
        session.Put(ErrorKey, Str("could not fetch room data from database"));
        return ServerError;
      }
      var rooms := allRooms.value;
      var data, k := CollectDayMaps(rooms, first, days, fetch);
      FirstFetchFailureIs(rooms, first, days, fetch, k);
      if k < |rooms| {
        session.Put(ErrorKey, Str("could not fetch room restrictions from database"));
        return ServerError;
      }
      assert rooms[..k] == rooms;
      resp := Show(StatusOK, "admin_reservations_calendar.page.tmpl",
                   EmptyTemplateData.(intMap := map["days_in_month" := days], data := data));
    }
  }
}
