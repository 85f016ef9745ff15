/**
 * The handler test cases of internal/handlers/handlers_test.go, run against
 * the fake store and stated as contracts: each method builds a fresh session
 * and controller, sets the session up as the test does, calls one handler
 * and says what it answers. The date parser and the address check are
 * parameters; each scenario requires only what the test relies on them for.
 */
module Scenarios {
  import opened Models
  import opened Sessions
  import opened Forms
  import opened Render
  import opened Handlers
  import Repository

  /** The pages of the test template cache. */
  const TestPages: set<string> := {"make_reservation.page.tmpl", "reservation_summary.page.tmpl",
                                   "choose_room.page.tmpl", "login.page.tmpl",
                                   "admin_reservations_calendar.page.tmpl"}

  method NewTestController(parseDate: string -> Option<Date>, formatDate: Date -> string, isEmail: string -> bool)
    returns (c: Controller)
    ensures fresh(c) && fresh(c.session) && c.session.data == map[]
    ensures c.db == Repository.TestRepo && c.outbox == [] && c.cache == TestPages
    ensures c.parseDate == parseDate && c.formatDate == formatDate && c.isEmail == isEmail
  {
    var session := new Session();
    c := new Controller(session, Repository.TestRepo, TestPages, "", parseDate, formatDate, isEmail,
                        (y: int, m: int) => 0, (y: int, m: int) => 0);
  }

  /** The fake store never has a free room, so every well-formed search ends
      in "No availability", including the two searches the tests expect to
      answer 307 and 200. */
  method SearchWithFakeStore(start: string, end: string, parseDate: string -> Option<Date>,
                             formatDate: Date -> string, isEmail: string -> bool)
    returns (resp: Response, error: Option<Value>)
    requires parseDate(start).Some? && parseDate(end).Some?
    ensures resp == Redirect("/search_availability", StatusSeeOther)
    ensures error == Some(Str("No availability"))
  {
    var c := NewTestController(parseDate, formatDate, isEmail);
    resp := c.PostAvailability(Some(map["start" := [start], "end" := [end]]));
    error := if ErrorKey in c.session.data then Some(c.session.data[ErrorKey]) else None;
  }

  /** A search without a form, and one whose start date does not parse. */
  method SearchFailures(start: string, end: string, parseDate: string -> Option<Date>,
                        formatDate: Date -> string, isEmail: string -> bool)
    returns (noForm: Response, badStart: Response)
    requires parseDate(start).None?
    ensures noForm == Redirect("/", StatusTemporaryRedirect)
    ensures badStart == Redirect("/", StatusTemporaryRedirect)
  {
    var c := NewTestController(parseDate, formatDate, isEmail);
    noForm := c.PostAvailability(None);
    badStart := c.PostAvailability(Some(map["start" := [start], "end" := [end]]));
  }

  /** The JSON search: room 1 is reported unavailable and room 1000 makes
      the fake store fail. */
  method AvailabilityJSONWithFakeStore(start: string, end: string, parseDate: string -> Option<Date>,
                                       formatDate: Date -> string, isEmail: string -> bool)
    returns (taken: Response, failing: Response)
    requires parseDate(start).Some? && parseDate(end).Some?
    ensures taken == Json(false, "", "1", start, end)
    ensures failing == Json(false, "", "", "", "")
  {
    var c := NewTestController(parseDate, formatDate, isEmail);
    assert Text.Atoi("1") == Some(1) && Text.Itoa(1) == "1";
    taken := c.AvailabilityJSON(Some(map["start" := [start], "end" := [end], "room_id" := ["1"]]));
    Atoi1000();
    failing := c.AvailabilityJSON(Some(map["start" := [start], "end" := [end], "room_id" := ["1000"]]));
  }

  /** A room id that is not a number is redirected, and a missing form is an
      internal error. */
  method AvailabilityJSONFailures(start: string, end: string, parseDate: string -> Option<Date>,
                                  formatDate: Date -> string, isEmail: string -> bool)
    returns (notANumber: Response, noForm: Response)
    requires parseDate(start).Some? && parseDate(end).Some?
    ensures notANumber == Redirect("/", StatusTemporaryRedirect)
    ensures noForm == Json(false, "Internal server error", "", "", "")
  {
    var c := NewTestController(parseDate, formatDate, isEmail);
    var id := "invalid";
    assert Text.Atoi(id).None? by { assert !Text.IsDigit(id[|id| - 1]); }
    notANumber := c.AvailabilityJSON(Some(map["start" := [start], "end" := [end], "room_id" := [id]]));
    noForm := c.AvailabilityJSON(None);
  }

  lemma Atoi1000()
    ensures Text.Atoi("1000") == Some(1000)
  {
    assert Text.DigitsValue("1") == 1;
    assert "10"[..1] == "1" && Text.DigitsValue("10") == 10;
    assert "100"[..2] == "10" && Text.DigitsValue("100") == 100;
    assert "1000"[..3] == "100" && Text.DigitsValue("1000") == 1000;
  }

  /** The pieces of a /choose_room URI. */
  lemma ChooseRoomPieces(id: string)
    requires '/' !in id
    ensures Text.Split("/choose_room/" + id, '/') == ["", "choose_room", id]
  {
    assert "/choose_room/" + id == "" + ['/'] + ("choose_room" + ['/'] + id);
    Text.SplitAt("", "choose_room" + ['/'] + id, '/');
    Text.SplitAt("choose_room", id, '/');
    Text.SplitNone(id, '/');
  }

  /** The reservation page: shown for room 1, redirected for room 100 (the
      fake store has no such room) and without a draft. */
  method ReservationWithFakeStore(parseDate: string -> Option<Date>, formatDate: Date -> string, isEmail: string -> bool)
    returns (known: Response, unknown: Response, noDraft: Response)
    ensures known.Page? && known.status == StatusOK
    ensures unknown == Redirect("/", StatusTemporaryRedirect)
    ensures noDraft == Redirect("/", StatusTemporaryRedirect)
  {
    var c := NewTestController(parseDate, formatDate, isEmail);
    noDraft := c.Reservation();
    var draft := EmptyReservation.(roomId := 1, room := Room(1, "General's Quarters"));
    c.session.Put(DraftKey, Draft(draft));
    known := c.Reservation();
    c.session.Put(DraftKey, Draft(draft.(roomId := 100)));
    unknown := c.Reservation();
  }

  function GuestForm(): Values {
    map["first_name" := ["John"], "last_name" := ["Smith"], "email" := ["john@smith.com"], "phone" := ["079286573"]]
  }

  lemma GuestAccepted(isEmail: string -> bool)
    requires isEmail("john@smith.com")
    ensures DetailsAccepted(GuestForm(), Combined(GuestForm(), map[]), isEmail)
  {
    var form := GuestForm();
    CombinedNoQuery(form);
    assert FormValue(form, "first_name") == "John" && FormValue(form, "last_name") == "Smith";
    assert FormValue(form, "email") == "john@smith.com";
    assert !Text.IsSpace("John"[0]) && !Text.IsSpace("Smith"[0]) && !Text.IsSpace("john@smith.com"[0]);
  }

  /** Posting the reservation form for the draft the test builds (room id
      left at 0): the booking goes through and both notifications are
      queued, to the guest and to the owner. */
  method PostReservationWithFakeStore(parseDate: string -> Option<Date>, formatDate: Date -> string, isEmail: string -> bool)
    returns (booked: Response, mails: seq<MailData>)
    requires isEmail("john@smith.com")
    ensures booked == Redirect("/reservation_summary", StatusSeeOther)
    ensures |mails| == 2 && mails[0].to == "john@smith.com" && mails[1].to == "property@owner.com"
  {
    var c := NewTestController(parseDate, formatDate, isEmail);
    var draft := EmptyReservation.(startDate := 748000, endDate := 748001);
    GuestAccepted(isEmail);
    CombinedNoQuery(GuestForm());
    c.session.Put(DraftKey, Draft(draft));
    booked := c.PostReservation(Some(GuestForm()), map[]);
    mails := c.outbox;
  }

  /** Room 4 makes the fake store's reservation insert fail and room 3 its
      restriction insert; a form that does not parse is redirected too. */
  method PostReservationFailures(parseDate: string -> Option<Date>, formatDate: Date -> string, isEmail: string -> bool)
    returns (noReservation: Response, noRestriction: Response, noForm: Response)
    requires isEmail("john@smith.com")
    ensures noReservation == Redirect("/", StatusTemporaryRedirect)
    ensures noRestriction == Redirect("/", StatusTemporaryRedirect)
    ensures noForm == Redirect("/", StatusTemporaryRedirect)
  {
    var c := NewTestController(parseDate, formatDate, isEmail);
    GuestAccepted(isEmail);
    c.session.Put(DraftKey, Draft(EmptyReservation.(roomId := 4)));
    noReservation := c.PostReservation(Some(GuestForm()), map[]);
    c.session.Put(DraftKey, Draft(EmptyReservation.(roomId := 3)));
    noRestriction := c.PostReservation(Some(GuestForm()), map[]);
    noForm := c.PostReservation(None, map[]);
  }

  /** A posted form whose first name is too short is shown again with 303
      and the minimum-length message, and nothing is stored or sent. */
  method PostReservationInvalid(parseDate: string -> Option<Date>, formatDate: Date -> string, isEmail: string -> bool)
    returns (resp: Response, mails: seq<MailData>)
    ensures resp.Page? && resp.status == StatusSeeOther && resp.template == "make_reservation.page.tmpl"
    ensures mails == []
  {
    var c := NewTestController(parseDate, formatDate, isEmail);
    c.session.Put(DraftKey, Draft(EmptyReservation.(roomId := 1)));
    var form := GuestForm()["first_name" := ["J"]];
    CombinedNoQuery(form);
    assert !DetailsAccepted(form, Combined(form, map[]), isEmail) by {
      assert FormValue(form, "first_name") == "J";
      assert Text.ByteLength("J") == 1;
    }
    resp := c.PostReservation(Some(form), map[]);
    mails := c.outbox;
  }

  /** The summary page with and without a draft; showing it drops the draft. */
  method SummaryWithFakeStore(parseDate: string -> Option<Date>, formatDate: Date -> string, isEmail: string -> bool)
    returns (shown: Response, draftLeft: bool, noDraft: Response)
    ensures shown.Page? && shown.status == StatusOK
    ensures !draftLeft
    ensures noDraft == Redirect("/", StatusSeeOther)
  {
    var c := NewTestController(parseDate, formatDate, isEmail);
    c.session.Put(DraftKey, Draft(EmptyReservation.(id := 10, roomId := 1, firstName := "John")));
    shown := c.Summary();
    draftLeft := DraftKey in c.session.data;
    noDraft := c.Summary();
  }

  /** Choosing a room by a URL whose id is not a number. */
  method ChooseInvalidRoom(parseDate: string -> Option<Date>, formatDate: Date -> string, isEmail: string -> bool)
    returns (invalid: Response)
    ensures invalid == Redirect("/", StatusSeeOther)
  {
    var c := NewTestController(parseDate, formatDate, isEmail);
    var id := "invalid";
    ChooseRoomPieces(id);
    assert Text.Atoi(id).None? by { assert !Text.IsDigit(id[|id| - 1]); }
    invalid := c.ChooseRoom("/choose_room/" + id);
  }

  /** Choosing room 1 without a draft, then with one: the draft gets room 1. */
  method ChooseRoomOne(parseDate: string -> Option<Date>, formatDate: Date -> string, isEmail: string -> bool)
    returns (noDraft: Response, chosen: Response, roomId: int)
    ensures noDraft == Redirect("/", StatusSeeOther)
    ensures chosen == Redirect("/make_reservation", StatusSeeOther)
    ensures roomId == 1
  {
    var c := NewTestController(parseDate, formatDate, isEmail);
    var id := "1";
    ChooseRoomPieces(id);
    assert Text.Atoi(id) == Some(1);
    var uri := "/choose_room/" + id;
    noDraft := c.ChooseRoom(uri);
    c.session.Put(DraftKey, Draft(EmptyReservation));
    chosen := c.ChooseRoom(uri);
    var d := c.session.GetDraft();
    roomId := if d.Some? then d.value.roomId else 0;
  }

  /** Booking from a link: room 1 starts a draft, a missing id and room 10
      (which the fake store does not have) are redirected home. */
  method BookRoomScenarios(parseDate: string -> Option<Date>, formatDate: Date -> string, isEmail: string -> bool)
    returns (booked: Response, missingId: Response, unknownRoom: Response)
    ensures booked == Redirect("make_reservation", StatusSeeOther)
    ensures missingId == Redirect("/", StatusSeeOther)
    ensures unknownRoom == Redirect("/", StatusSeeOther)
  {
    var c := NewTestController(parseDate, formatDate, isEmail);
    assert Text.Atoi("1") == Some(1) && Text.Atoi("10") == Some(10);
    assert Text.Atoi("").None?;
    booked := c.BookRoom(map["id" := ["1"], "s" := ["2050-01-01"], "e" := ["2050-01-02"]]);
    missingId := c.BookRoom(map["s" := ["2050-01-01"], "e" := ["2050-01-02"]]);
    unknownRoom := c.BookRoom(map["id" := ["10"], "s" := ["2050-01-01"], "e" := ["2050-01-02"]]);
  }
}
