# GObookings in Dafny

A model of the booking core of GObookings, a Go web application for a small
bed-and-breakfast. Guests search for free dates, pick a room, fill in
their details and get a booking summary. The owner logs in and looks at
reservations on a monthly calendar. The model covers the layers that logic
lives in:

- **Store** (`postgres.dfy`, `fake.dfy`, `repository.dfy`). The PostgreSQL
  store is a class over in-memory tables: rooms, reservations, room
  restrictions and users, plus the two serial sequences.
  - Every statement may fail in the driver; elsewhere the answer is a function
    of the tables.
  - The store the handler tests use is a set of pure functions with fixed
    failure triggers.
  - A `DbRepo` value selects one of the two stores for the handlers.
- **Handlers** (`handlers.dfy`). A `Controller` class holds the session, the
  store and an outbox standing in for the mail channel.
  - Each HTTP handler is a method that returns a `Response` and states what
    becomes of the session, the outbox and the tables.
  - The booking flow runs over the session's "reservation" draft:
    PostAvailability or BookRoom, then ChooseRoom, Reservation,
    PostReservation and Summary.
  - The admin calendar builds a reservation map and a block map for each room.
- **Calendar day maps** (`calendar.dfy`): the loops that zero every day of
  the month and fill the maps from a room's restrictions. Also the map
  functions that say which day holds which id.
- **Forms** (`forms.dfy`): the form, its error map, and Required, MinLength,
  IsEmail, Has and Valid.
- **Rendering** (`render.dfy`): IterateDays, the one-shot messages
  AddDefaultData pops from the session, and the template-cache lookup.
- **Sessions and text** (`sessions.dfy`, `text.dfy`): the session as a map,
  and the standard-library string functions whose edge cases the handlers
  depend on. These are strconv.Atoi/Itoa, strings.Split, strings.TrimSpace
  and len() in bytes.
- **Scenarios** (`scenarios.dfy`): the handler test cases of
  `internal/handlers/handlers_test.go`, stated as contracts over the fake
  store.

Modelling choices:

- **Dates** are day numbers counted from 0001-01-01, so Go's zero `time.Time`
  is day 0.
- **Foreign code** is taken as parameters or constants of the controller:
  time.Parse and Format with layout "2006-01-02", the validator library's
  e-mail check, bcrypt's hash comparison, and the CSRF token.
- **Driver failures** (a context deadline, a lost connection) are a
  nondeterministic `Err(DriverFailure)`.
- **Go's 64-bit `int`** is made explicit where it matters:
  - the range of strconv.Atoi;
  - the `count + 1` wrap-around in IterateDays.

Where the handler tests and the code disagree, the model follows the code.
Two PostAvailability cases in `internal/handlers/handlers_test.go:427-456`
expect 307 and 200. The fake store always answers an empty room list, so
the handler answers 303 with "No availability" for both; `Scenarios.SearchWithFakeStore`
proves that for every pair of parseable dates.

`internal/forms/forms.go:36-52` declares MinLength and Has with the request
as a parameter, and both read the field from the request's `r.Form`, not from
the form's own values. Their callers (`internal/handlers/handlers.go:249`)
and `internal/forms/forms_test.go` call them without one. The model follows
forms.go: MinLength and Has take `r.Form`, and PostReservation passes its
own. Request values come in two views:

- `r.PostForm` holds the body's values.
- `r.Form` holds the body's values followed by the URL query's (`Forms.Combined`).

PostReservation copies the guest's details from `r.Form` and runs Required
and IsEmail on `r.PostForm`.

## Model

| member | source | states |
|---|---|---|
| `Models.Wrap` | internal/render/render.go:43 | a Go int result is the exact value when it fits the 64-bit range, always lies in that range, and MaxInt + 1 wraps to MinInt |
| `Text.Atoi` | internal/handlers/handlers.go:161 | an empty string, a lone sign, or any non-digit after the optional sign gives None; a success is the signed value of the digits and a 64-bit int; digits that do not parse denote a value out of the 64-bit range |
| `Text.NatDigitsValue` | internal/handlers/handlers.go:186 | the digits Itoa prints for a natural number denote that number |
| `Text.AtoiItoa` | internal/handlers/handlers.go:161-186 | strconv.Atoi of strconv.Itoa(n) gives n back for every 64-bit n: the room id echoed in the JSON answer is the one parsed |
| `Text.ItoaAtoi` | internal/handlers/handlers.go:161-186 | a string in Itoa's form (no plus sign, no leading zero, no "-0") that Atoi accepts is printed back unchanged by Itoa |
| `Text.NatDigitsOfValue` | internal/handlers/handlers.go:161-186 | digits without a leading zero are the shortest decimal form of the number they denote |
| `Text.ItoaInjective` | internal/handlers/handlers.go:548-551 | distinct ints print differently |
| `Text.Split` | internal/handlers/handlers.go:340 | strings.Split on one separator yields at least one piece and no piece contains the separator |
| `Text.SplitNone` | internal/handlers/handlers.go:340 | a string without the separator splits into itself alone |
| `Text.SplitAt` | internal/handlers/handlers.go:340 | the first separator ends the first piece and the rest splits on its own |
| `Text.JoinSplit` | internal/handlers/handlers.go:340 | joining the pieces with the separator gives the string back, so Split loses nothing |
| `Text.TrimLeftEmpty` | internal/forms/forms.go:29 | trimming leading white space leaves nothing exactly when every character is white space |
| `Text.TrimRightKeepsNonSpace` | internal/forms/forms.go:29 | trimming trailing white space keeps a string that has a non-space character non-empty |
| `Text.TrimSpaceEmpty` | internal/forms/forms.go:29 | strings.TrimSpace(s) == "" exactly when s is empty or all Unicode white space |
| `Text.ByteLength` | internal/forms/forms.go:38 | len() of a string counts UTF-8 bytes, between its character count and four times that |
| `Sessions.Session.Put` | internal/handlers/handlers.go:115 | the key maps to the new value and every other key is unchanged; the key then exists; putting a draft under "reservation" makes it the draft GetDraft reads, putting any other key leaves GetDraft unchanged |
| `Sessions.Session.Remove` | internal/handlers/handlers.go:324 | the key is gone and every other key is unchanged; removing "reservation" leaves GetDraft None, removing any other key leaves it unchanged |
| `Sessions.Session.Exists` | internal/render/render.go:56 | true exactly when the key is present; Put makes it true and Remove false |
| `Sessions.Session.PopString` | internal/render/render.go:51-53 | answers the stored string, or "" when the key is missing or holds another type, and removes the key either way |
| `Sessions.Session.GetDraft` | internal/handlers/handlers.go:199 | the typed read of "reservation": Some exactly when the slot holds a reservation, and then that reservation |
| `Sessions.DraftInPut` | internal/handlers/handlers.go:115 | a draft stored under "reservation" is the one the next handler reads |
| `Sessions.DraftInOtherKey` | internal/handlers/handlers.go:229-231 | writing or removing any other key (a flash message, a block map) leaves the draft as it was |
| `Sessions.DraftInRemove` | internal/handlers/handlers.go:324 | after the summary removes "reservation" no draft is left |
| `FakeRepo.InsertReservation` | internal/repository/dbrepo/test_repo.go:14-19 | fails exactly for room 4 with the canned message, otherwise answers id 1 |
| `FakeRepo.InsertRoomRestriction` | internal/repository/dbrepo/test_repo.go:21-26 | fails exactly for room 3 with the canned message |
| `FakeRepo.SearchAvailabilityByRoomID` | internal/repository/dbrepo/test_repo.go:29-34 | fails exactly for room 1000 and never reports a room as available |
| `FakeRepo.SearchAvailabilityAllRooms` | internal/repository/dbrepo/test_repo.go:36-39 | always succeeds with an empty list |
| `FakeRepo.GetRoomById` | internal/repository/dbrepo/test_repo.go:41-47 | fails exactly for ids above 2, otherwise answers the zero room |
| `PostgresRepo.BlockedIff` | internal/repository/dbrepo/postgres.go:71-90 | the two availability queries agree: a room id is outside the whole-hotel subquery exactly when the per-room count finds no overlapping row |
| `PostgresRepo.FreeRoomsMembers` | internal/repository/dbrepo/postgres.go:84-107 | a room is in the whole-hotel answer exactly when it is in the rooms table and no restriction on it overlaps the window |
| `PostgresRepo.FreeRoomsUnrestricted` | internal/repository/dbrepo/postgres.go:88-90 | with no restriction rows every room is returned |
| `PostgresRepo.AddRestrictionEffect` | internal/repository/dbrepo/postgres.go:71-72 | one more restriction makes its room unavailable over exactly the windows that overlap it half-open (touching windows stay free) and changes nothing for other rooms |
| `PostgresRepo.OtherRoomsIrrelevant` | internal/repository/dbrepo/postgres.go:88-90 | a room's presence in the whole-hotel answer does not depend on restrictions of other rooms |
| `PostgresRepo.FindRoom` | internal/repository/dbrepo/postgres.go:113 | finds a row with the id when there is one, and None only when no row has it |
| `PostgresRepo.RoomAnswer` | internal/repository/dbrepo/postgres.go:109-121 | GetRoomById fails with no rows exactly when no room has the id, and otherwise answers a room with that id |
| `PostgresRepo.FindUserByEmail` | internal/repository/dbrepo/postgres.go:164-168 | the index of a user with the email (the first in table order, standing for the row QueryRow picks), None exactly when there is none |
| `PostgresRepo.AuthenticateSound` | internal/repository/dbrepo/postgres.go:159-176 | an unknown email gives no rows; for the user row found the answer is bcrypt's verdict; success exactly when that user's stored hash matches, answering the user's id and hash |
| `PostgresRepo.SortByStartDescSorted` | internal/repository/dbrepo/postgres.go:185 | the listing is ordered by start date, latest first |
| `PostgresRepo.SortByStartDescPerm` | internal/repository/dbrepo/postgres.go:183-185 | the listing holds exactly the table's rows (a permutation) |
| `PostgresRepo.UnprocessedSort` | internal/repository/dbrepo/postgres.go:226-230 | filtering by processed = 0 commutes with the ordering |
| `PostgresRepo.JoinUnprocessed` | internal/repository/dbrepo/postgres.go:184-185 | filtering commutes with the join with rooms, and a join that finds every room still does after filtering |
| `PostgresRepo.NewListingIsFilteredListing` | internal/repository/dbrepo/postgres.go:221-263 | AllNewReservations is AllReservations restricted to processed = 0, in the same order |
| `PostgresRepo.PostgresDbRepo.constructor` | internal/repository/dbrepo/dbrepo.go:21-26 | the store starts with the given tables and serials, consistent ids |
| `PostgresRepo.PostgresDbRepo.InsertReservation` | internal/repository/dbrepo/postgres.go:17-42 | on success appends exactly one row with the given names, email, phone, dates and room and the fresh id, answers that id (no existing row has it) and changes no other table; on failure changes nothing |
| `PostgresRepo.PostgresDbRepo.InsertRoomRestriction` | internal/repository/dbrepo/postgres.go:44-64 | on success appends one row copying the given fields with a fresh id; on failure changes nothing |
| `PostgresRepo.PostgresDbRepo.SearchAvailabilityByRoomID` | internal/repository/dbrepo/postgres.go:67-82 | answers true exactly when no restriction row of the room overlaps the window, or a driver failure |
| `PostgresRepo.PostgresDbRepo.SearchAvailabilityAllRooms` | internal/repository/dbrepo/postgres.go:84-107 | answers the free rooms, or a driver failure |
| `PostgresRepo.PostgresDbRepo.GetRoomById` | internal/repository/dbrepo/postgres.go:109-121 | answers the room with the id, no rows when there is none, or a driver failure |
| `PostgresRepo.PostgresDbRepo.GetUserById` | internal/repository/dbrepo/postgres.go:124-136 | answers a user with the id (its id column unselected, so 0), no rows when there is none, or a driver failure |
| `PostgresRepo.PostgresDbRepo.UpdateUser` | internal/repository/dbrepo/postgres.go:138-156 | every row with the user's id gets the four columns and every other row and table is unchanged; a failure changes nothing |
| `PostgresRepo.PostgresDbRepo.Authenticate` | internal/repository/dbrepo/postgres.go:159-176 | answers the Authenticate verdict on the tables or a driver failure |
| `PostgresRepo.PostgresDbRepo.ScanListing` | internal/repository/dbrepo/postgres.go:191-212 | the scan loop answers every row joined with its room, in order, and fails if a row's room is missing |
| `PostgresRepo.PostgresDbRepo.AllReservations` | internal/repository/dbrepo/postgres.go:178-219 | every reservation joined with its room, latest start first, or a failure |
| `PostgresRepo.PostgresDbRepo.AllNewReservations` | internal/repository/dbrepo/postgres.go:221-263 | the unprocessed reservations in the same order, or a failure |
| `Repository.InsertReservation` | internal/repository/repository.go:7 | the held store's InsertReservation: the fake's canned answer, or the table insert and its fresh id |
| `Repository.InsertRoomRestriction` | internal/repository/repository.go:8 | the held store's InsertRoomRestriction and its effect on the tables |
| `Repository.SearchAvailabilityByRoomID` | internal/repository/dbrepo/postgres.go:67-82 | the held store's per-room availability answer |
| `Repository.SearchAvailabilityAllRooms` | internal/repository/dbrepo/postgres.go:84-107 | the held store's free-room list |
| `Repository.GetRoomById` | internal/repository/dbrepo/postgres.go:109-121 | the held store's room lookup |
| `Repository.Authenticate` | internal/repository/dbrepo/postgres.go:159-176 | the PostgreSQL store's verdict; the fake store has no Authenticate |
| `Forms.FormValue` | internal/forms/forms.go:28 | url.Values.Get: the first value posted for the field, or "" |
| `Forms.CombinedFormValue` | internal/handlers/handlers.go:242-245 | values appended at the end of a field's list keep its first value: r.Form.Get answers the body's value when the body has one, and the query's otherwise |
| `Forms.CombinedNoQuery` | internal/handlers/handlers.go:236-247 | without a URL query r.Form is exactly r.PostForm |
| `Forms.Added` | internal/forms/errors.go:6-8 | adding appends the message to that field's list only, and adds the field as a key |
| `Forms.AddAllExtends` | internal/forms/errors.go:6-8 | no sequence of adds removes a message or a key, so a form once invalid stays invalid |
| `Forms.FirstEverAdded` | internal/forms/errors.go:11-19 | Get answers the first message ever added to a field, however many adds follow |
| `Forms.NoteBlanksSkips` | internal/forms/forms.go:26-33 | Required leaves a field whose value is not blank alone |
| `Forms.NoteBlanksRepeats` | internal/forms/forms.go:26-33 | Required adds the blank message to a blank field once per time it is listed |
| `Forms.NoteBlanksAt` | internal/forms/forms.go:26-33 | Required adds "This field cannot be blank" to each listed field whose trimmed value is empty, and nothing to any other field |
| `Forms.NoteBlanksKeys` | internal/forms/forms.go:26-33 | the keys after Required are the old keys plus exactly the blank listed fields |
| `Forms.NoBlanks` | internal/forms/forms.go:26-33 | Required on a fresh form records nothing exactly when no listed field is blank |
| `Forms.Errors.constructor` | internal/forms/forms.go:21 | a new error map is empty |
| `Forms.Errors.Add` | internal/forms/errors.go:6-8 | the map after the add is the map-level Added |
| `Forms.Errors.Get` | internal/forms/errors.go:11-19 | the field's first message as First gives it on the map, "" for a field with no messages; reads only |
| `Forms.Form.constructor` | internal/forms/forms.go:18-23 | forms.New keeps the values and starts with no errors, so the form is valid |
| `Forms.Form.Valid` | internal/forms/forms.go:62-64 | true exactly when no field has an error |
| `Forms.Form.Has` | internal/forms/forms.go:46-52 | true exactly when the field's first value in the request's r.Form is non-empty; over the form's own values, false means Required flags the field; reads no errors |
| `Forms.Form.MissingIsBlank` | internal/forms/forms.go:26-52 | when r.Form is the form's values followed by a query's, a field Has rejects is one Required flags |
| `Forms.Form.SpacesAreHadButBlank` | internal/forms/forms.go:26-52 | the converse fails: for a value of two spaces Has holds, yet Required records "This field cannot be blank" against the field |
| `Forms.Form.Required` | internal/forms/forms.go:26-33 | the loop's error map is NoteBlanks of the old one over the listed fields |
| `Forms.Form.MinLength` | internal/forms/forms.go:36-43 | reads the request's r.Form, not the form's values: false exactly when the first value there is shorter in bytes than the length, and then exactly one message is added; true leaves the errors untouched |
| `Forms.Form.IsEmail` | internal/forms/forms.go:55-59 | adds "Invalid email adress" exactly when the address check fails |
| `Render.IterateDays` | internal/render/render.go:40-47 | answers 1, 2, ..., count (element i is i + 1); empty for count <= 0 and, by the Go wrap-around of count + 1, for the largest int |
| `Render.MessagesShownOnce` | internal/render/render.go:51-53 | after the messages are popped a second render finds flash, error and warning empty; popping is idempotent and keeps every other key |
| `Render.AuthenticatedFlag` | internal/render/render.go:56-58 | IsAuthenticated is 1 when the session has "user_id" and otherwise what the handler set; popping keeps "user_id" |
| `Render.AddDefaultData` | internal/render/render.go:50-60 | the data gets the three popped messages, the CSRF token and the flag, and the session loses exactly the three message keys |
| `Render.Template` | internal/render/render.go:64-95 | a name missing from the cache is an error and leaves the session alone; a cached page pops the messages and is rendered with the default data unless executing it fails |
| `Calendar.Zeroed` | internal/handlers/handlers.go:526-529 | a 0 for every day of the month and for no other day |
| `Calendar.Paint` | internal/handlers/handlers.go:540-542 | every day from start to end inclusive gets the value and every other day keeps its own |
| `Calendar.FillReservationsAt` | internal/handlers/handlers.go:537-542 | each day covered by a reservation row carries the id of the last such row; every other day keeps what it had |
| `Calendar.FillBlocksAt` | internal/handlers/handlers.go:543-546 | an owner block writes its own row id at its start day only, the last block on a day wins |
| `Calendar.MonthMaps` | internal/handlers/handlers.go:524-547 | both maps have every day of the month, holding the last reservation id (or block id) on it and 0 for a free day; a reservation beyond the month adds its outside days |
| `Calendar.ZeroMonth` | internal/handlers/handlers.go:526-529 | the zeroing loop from the first day while not after the last builds Zeroed |
| `Calendar.PaintDays` | internal/handlers/handlers.go:540-542 | the inner loop from start while not after end builds Paint |
| `Calendar.BuildDayMaps` | internal/handlers/handlers.go:524-547 | the nested loops for one room build both maps from its rows in order |
| `Calendar.MapKeysDistinct` | internal/handlers/handlers.go:548-551 | rooms with different ids get different "block_map_" and "reservation_map_" keys, and the two kinds never clash |
| `Handlers.ReservationFormValid` | internal/handlers/handlers.go:247-251 | the reservation form has no errors exactly when first name, last name and email are not blank in the body, the first name in r.Form has at least 3 bytes and the address passes the check |
| `Handlers.DetailsReadBody` | internal/handlers/handlers.go:242-251 | accepted details were posted in the body, so the names and email copied into the draft are the body's whatever the query holds |
| `Handlers.LoginReadsBody` | internal/handlers/handlers.go:401-405 | an accepted login's email and password are the body's, so Authenticate gets what the checks saw |
| `Handlers.LoginFormValid` | internal/handlers/handlers.go:400-405 | the login form has no errors exactly when email and password are not blank and the address passes the check |
| `Handlers.BookingBlocksRoom` | internal/handlers/handlers.go:261-279 | after a booking's two inserts the room is free over a window exactly when it was before and the window does not overlap the stay; one more reservation; rooms and users unchanged |
| `Handlers.FirstFetchFailure` | internal/handlers/handlers.go:522-536 | the index of the first room whose restrictions cannot be fetched: all before it succeed, it fails |
| `Handlers.FirstFetchFailureIs` | internal/handlers/handlers.go:522-536 | an index before which every fetch succeeds and at which one fails is the first failure |
| `Handlers.StashedBlockMap` | internal/handlers/handlers.go:551 | with distinct room ids, each room's block map is found in the session under "block_map_<id>" |
| `Handlers.StashKeepsKey` | internal/handlers/handlers.go:551 | saving the block maps changes no key that is not a room's block map key |
| `Handlers.Controller.constructor` | internal/handlers/handlers.go:27-45 | the controller holds the given session, store and helpers with an empty outbox |
| `Handlers.Controller.Show` | internal/render/render.go:64-95 | the page is the render.Template outcome with the given status |
| `Handlers.Controller.Fail` | internal/handlers/handlers.go:72-73 | puts the message under "error" and redirects with the status |
| `Handlers.Controller.PostAvailability` | internal/handlers/handlers.go:69-119 | form and date failures and a failed query redirect to "/" with 307 and their messages; no room redirects to "/search_availability" with 303 "No availability"; otherwise the draft becomes just the two dates and the room list is shown |
| `Handlers.Controller.AvailabilityJSON` | internal/handlers/handlers.go:130-192 | a missing form answers "Internal server error"; bad dates or room id redirect with 307; otherwise the JSON answer is the store's availability with the dates echoed and the id printed, or false on a store error; the session is unchanged |
| `Handlers.Controller.Reservation` | internal/handlers/handlers.go:198-225 | no draft or an unknown room redirect with 307; otherwise the draft gets the room's name and the form is shown |
| `Handlers.Controller.CheckGuestDetails` | internal/handlers/handlers.go:247-251 | the form's errors are the reservation form's, and it is valid exactly when the details are accepted |
| `Handlers.Controller.StoreBooking` | internal/handlers/handlers.go:261-279 | the restriction is inserted only after the reservation, with its new id; the three outcomes and the tables after each; the fake store fails for rooms 4 and 3 |
| `Handlers.Controller.Book` | internal/handlers/handlers.go:261-310 | a booking ends in the summary redirect with both mails queued in order and the draft saved, or in a 307 with the insert's message and no mail |
| `Handlers.Controller.PostReservation` | internal/handlers/handlers.go:228-311 | no draft or no form redirect with 307 and nothing stored or sent; the draft takes the guest's details from r.Form (body values, then query values) while the checks run on the body (MinLength on r.Form); rejected details re-show the form with status 303 and nothing stored or sent; accepted details book as Book states |
| `Handlers.Controller.Summary` | internal/handlers/handlers.go:317-337 | no draft redirects with 303; otherwise the draft is removed and shown |
| `Handlers.Controller.ChooseRoom` | internal/handlers/handlers.go:339-356 | a short URI panics; a non-numeric id or no draft redirect with 303 and a message; otherwise only the draft's room id changes, then 303 to "/make_reservation" |
| `Handlers.Controller.BookRoom` | internal/handlers/handlers.go:359-384 | a bad id or an unknown room redirect with 303; otherwise a fresh draft holds the id, the two dates (day 0 when unparsable) and the room's name |
| `Handlers.Controller.CheckLogin` | internal/handlers/handlers.go:400-405 | the login form's errors, valid exactly when the login is accepted |
| `Handlers.Controller.PostLogin` | internal/handlers/handlers.go:392-424 | rejected input re-shows the login page; a failed Authenticate redirects to "/user/login"; success stores the authenticated user's id and the flash and redirects home |
| `Handlers.Controller.RoomDayMaps` | internal/handlers/handlers.go:524-547 | one room's fetch outcome and its two maps from its restrictions |
| `Handlers.Controller.CollectDayMaps` | internal/handlers/handlers.go:522-553 | the loop over rooms stops at the first failed fetch; the session holds the block maps of the rooms before it and, when every fetch succeeds, the data holds both maps of every room |
| `Handlers.Controller.AdminReservationsCalendar` | internal/handlers/handlers.go:468-559 | bad y/m or a failed room list are server errors with their messages; a failed fetch is a server error after the earlier rooms' block maps were saved; otherwise the page shows every room's maps |
| `Scenarios.NewTestController` | internal/handlers/setup_test.go:40-53 | the test controller starts with an empty session and outbox, the fake store and a cache holding the pages |
| `Scenarios.SearchWithFakeStore` | internal/handlers/handlers_test.go:373-457 | every search with parseable dates answers 303 to "/search_availability" with "No availability" |
| `Scenarios.SearchFailures` | internal/handlers/handlers_test.go:388-412 | a missing form and a bad start date both answer 307 |
| `Scenarios.AvailabilityJSONWithFakeStore` | internal/handlers/handlers_test.go:270-371 | room 1 is reported unavailable with its id and dates echoed; room 1000 answers false with nothing else |
| `Scenarios.AvailabilityJSONFailures` | internal/handlers/handlers_test.go:291-350 | a non-numeric room id answers 307 and a missing form "Internal server error" |
| `Scenarios.Atoi1000` | internal/handlers/handlers_test.go:355 | "1000" parses to 1000 |
| `Scenarios.ChooseRoomPieces` | internal/handlers/handlers_test.go:502 | "/choose_room/<id>" splits into "", "choose_room" and the id |
| `Scenarios.ReservationWithFakeStore` | internal/handlers/handlers_test.go:55-94 | room 1 shows the page with 200; room 100 and a missing draft answer 307 |
| `Scenarios.GuestAccepted` | internal/handlers/handlers_test.go:123-130 | the test's guest details pass the reservation form checks |
| `Scenarios.PostReservationWithFakeStore` | internal/handlers/handlers_test.go:105-142 | for the test's draft (room id 0) and body, the booking answers 303 to the summary and queues two mails, to the guest and to the owner |
| `Scenarios.PostReservationFailures` | internal/handlers/handlers_test.go:144-266 | room 4, room 3 and a missing form all answer 307 |
| `Scenarios.PostReservationInvalid` | internal/handlers/handlers_test.go:189-216 | a one-letter first name re-shows the form with 303 and queues no mail |
| `Scenarios.SummaryWithFakeStore` | internal/handlers/handlers_test.go:459-497 | the summary shows with 200 and drops the draft; without one it answers 303 |
| `Scenarios.ChooseInvalidRoom` | internal/handlers/handlers_test.go:499-510 | "/choose_room/invalid" answers 303 |
| `Scenarios.ChooseRoomOne` | internal/handlers/handlers_test.go:512-538 | room 1 without a draft answers 303; with one it answers 303 to "/make_reservation" and the draft has room 1 |
| `Scenarios.BookRoomScenarios` | internal/handlers/handlers_test.go:541-571 | room 1 starts a draft, a missing id and room 10 redirect home, all with 303 |

## Left out

- SQL text, `database/sql`, the connection pool and the context deadlines: each store statement either reaches the tables or fails with `DriverFailure`.
- `AllUsers` (internal/repository/dbrepo/postgres.go:13-15 and test_repo.go:10-12) answers a constant true and nothing calls it.
- The store methods the handlers call that no shown file implements: AllRooms, FetchRestrictionsForRoomByDay, FetchReservationById, UpdateReservation, UpdateProcessedReservation, DeleteReservation. The calendar receives the answers of the first two as parameters; the admin handlers that only forward to the others are not modelled, and neither is AdminPostReservationsCalendar, whose loops only log.
- Repository.Authenticate: the fake store has no Authenticate, so for it the contract leaves the answer open.
- The order of rows with equal start dates: ORDER BY start_date DESC leaves it to the database; the model keeps table order.
- PostgresRepo.FreeRooms, PostgresRepo.FreeRoomsUnrestricted, PostgresRepo.PostgresDbRepo.SearchAvailabilityAllRooms, PostgresRepo.FindUserByEmail, PostgresRepo.AuthenticateSound: the queries have no ORDER BY (and QueryRow takes one row of those sharing an email), so the database picks the order; the model fixes it as table order, and where several users share an email it finds the first in the table, while the database may return any of them.
- The timestamps created_at and updated_at and the LEFT JOIN's room id column (a row whose room is missing fails the scan with `ScanFailure`).
- The mail channel and its consumer goroutine: the two messages are appended to an outbox, and their bodies are kept as the values they are formatted from, not as HTML.
- Template parsing and execution, the cache building from the file system and the response writer: a cached page may render or fail, and the model does not say which.
- Handlers.Controller.AdminReservationsCalendar: the `time.Now()` default, the month arithmetic, the previous/next month strings and the "now" entry of the data are not modelled; the first day and length of the month are functions of the year and month.
- Handlers.Controller.PostLogin: the session token renewal (and its panic on failure) is not modelled, and neither is a ParseForm error, which the handler only logs.
- Handlers.Controller.PostReservation: the two inserts are not a transaction; when the restriction insert fails the reservation row stays, as in the source.
- Handlers.Controller.ChooseRoom: a URI with fewer than three pieces makes the Go code index out of range; the model answers `Panicked` (the router's Recoverer turns it into a 500).
- Routing, CSRF middleware, the session store's internals, the flag bootstrap in cmd/web/main.go, the older pkg/ snapshot and the browser script.
- Concurrency: the model is single-threaded, so nothing re-checks availability between a search and a booking.
