/**
 * The PostgreSQL-backed store (internal/repository/dbrepo/postgres.go) as a
 * class over in-memory tables. Each table is a sequence of rows in insertion
 * order; `nextReservationId` and `nextRestrictionId` are the tables' serial
 * sequences.
 *
 * Every statement runs under a context deadline and can fail in the driver.
 * Whether it reaches the database is outside the model, so each query method
 * may return `Err(DriverFailure)` and otherwise returns the answer the
 * database computes. That answer is given by a function of the tables
 * (`FreeRooms`, `RoomAnswer`, `AuthenticateAnswer`, ...). The lemmas below
 * state the properties of those functions.
 */
module PostgresRepo {
  import opened Models

  /** The outcome of bcrypt.CompareHashAndPassword. */
  datatype HashCheck = HashMatch | HashMismatch | HashInvalid

  // ---------------------------------------------------------------------------
  // Availability

  /** A restriction row keeps the room from being booked over [start, end). */
  predicate Blocks(r: RoomRestriction, roomId: int, start: Date, end: Date) {
    r.roomId == roomId && Overlaps(start, end, r)
  }

  /** The count query of SearchAvailabilityByRoomID finds no row. */
  predicate RoomFree(rs: seq<RoomRestriction>, roomId: int, start: Date, end: Date) {
    forall i :: 0 <= i < |rs| ==> !Blocks(rs[i], roomId, start, end)
  }

  /** The subquery of SearchAvailabilityAllRooms: the room_id of every
      restriction that overlaps the window. */
  function BlockedRoomIds(rs: seq<RoomRestriction>, start: Date, end: Date): set<int> {
    set i | 0 <= i < |rs| && Overlaps(start, end, rs[i]) :: rs[i].roomId
  }

  /** The rooms whose id is not in the subquery, in table order. */
  function FreeRooms(rooms: seq<Room>, rs: seq<RoomRestriction>, start: Date, end: Date): seq<Room> {
    if rooms == [] then []
    else
      var last := rooms[|rooms| - 1];
      FreeRooms(rooms[..|rooms| - 1], rs, start, end)
        + (if last.id !in BlockedRoomIds(rs, start, end) then [last] else [])
  }

  /** The two searches agree: a room is outside the subquery's set exactly
      when the per-room count finds nothing. */
  lemma BlockedIff(rs: seq<RoomRestriction>, roomId: int, start: Date, end: Date)
    ensures roomId !in BlockedRoomIds(rs, start, end) <==> RoomFree(rs, roomId, start, end)
  {
    if !RoomFree(rs, roomId, start, end) {
      var i :| 0 <= i < |rs| && Blocks(rs[i], roomId, start, end);
      assert rs[i].roomId in BlockedRoomIds(rs, start, end);
    }
  }

  /** A room is in the whole-hotel result exactly when it is in the rooms
      table and nothing on that room overlaps the window. */
  lemma {:induction false} FreeRoomsMembers(rooms: seq<Room>, rs: seq<RoomRestriction>, start: Date, end: Date, room: Room)
    ensures room in FreeRooms(rooms, rs, start, end) <==> room in rooms && RoomFree(rs, room.id, start, end)
    decreases |rooms|
  {
    BlockedIff(rs, room.id, start, end);
    if rooms != [] {
      var init := rooms[..|rooms| - 1];
      FreeRoomsMembers(init, rs, start, end, room);
      assert rooms == init + [rooms[|rooms| - 1]];
    }
  }

  /** With no restriction rows every room is free, in table order. */
  lemma {:induction false} FreeRoomsUnrestricted(rooms: seq<Room>, start: Date, end: Date)
    ensures FreeRooms(rooms, [], start, end) == rooms
    decreases |rooms|
  {
    if rooms != [] {
      FreeRoomsUnrestricted(rooms[..|rooms| - 1], start, end);
      assert BlockedRoomIds([], start, end) == {};
      assert rooms[..|rooms| - 1] + [rooms[|rooms| - 1]] == rooms;
    }
  }

  /** One more restriction row blocks its own room over exactly the windows
      that overlap it (a window that only touches it stays free) and leaves
      every other room as it was. */
  lemma AddRestrictionEffect(rs: seq<RoomRestriction>, x: RoomRestriction, roomId: int, start: Date, end: Date)
    ensures RoomFree(rs + [x], roomId, start, end)
        <==> RoomFree(rs, roomId, start, end) && !(x.roomId == roomId && start < x.endDate && end > x.startDate)
  {
    var rs' := rs + [x];
    assert rs'[|rs|] == x;
    assert forall i :: 0 <= i < |rs| ==> rs'[i] == rs[i];
  }

  /** A room's presence in the whole-hotel result does not depend on rows
      about other rooms. */
  lemma OtherRoomsIrrelevant(rooms: seq<Room>, rs: seq<RoomRestriction>, x: RoomRestriction, room: Room, start: Date, end: Date)
    requires x.roomId != room.id
    ensures room in FreeRooms(rooms, rs + [x], start, end) <==> room in FreeRooms(rooms, rs, start, end)
  {
    FreeRoomsMembers(rooms, rs + [x], start, end, room);
    FreeRoomsMembers(rooms, rs, start, end, room);
    AddRestrictionEffect(rs, x, room.id, start, end);
  }

  // ---------------------------------------------------------------------------
  // Lookups

  /** The first row of the rooms table with the id (the primary key). */
  function FindRoom(rooms: seq<Room>, id: int): (r: Option<Room>)
    ensures r.Some? ==> r.value in rooms && r.value.id == id
    ensures r.None? ==> forall k :: 0 <= k < |rooms| ==> rooms[k].id != id
  {
    if rooms == [] then None
    else if rooms[0].id == id then Some(rooms[0])
    else FindRoom(rooms[1..], id)
  }

  /** What the database answers to GetRoomById. */
  function RoomAnswer(rooms: seq<Room>, id: int): (r: Result<Room, DbError>)
    ensures r.Err? <==> forall k :: 0 <= k < |rooms| ==> rooms[k].id != id
    ensures r.Err? ==> r.error == NoRows
    ensures r.Ok? ==> r.value in rooms && r.value.id == id
  {
    match FindRoom(rooms, id)
    case None => Err(NoRows)
    case Some(room) => Ok(room)
  }

  /** The index of the first user with the email, as QueryRow picks it. */
  function FindUserByEmail(users: seq<User>, email: string): (k: Option<nat>)
    ensures k.Some? ==> k.value < |users| && users[k.value].email == email
    ensures k.Some? ==> forall j :: 0 <= j < k.value ==> users[j].email != email
    ensures k.None? ==> forall j :: 0 <= j < |users| ==> users[j].email != email
  {
    if users == [] then None
    else if users[0].email == email then Some(0)
    else match FindUserByEmail(users[1..], email)
      case None => None
      case Some(k) => Some(k + 1)
  }

  /** What the database answers to Authenticate: the row found by email,
      then bcrypt's verdict on the stored hash. */
  function AuthenticateAnswer(users: seq<User>, compareHash: (string, string) -> HashCheck,
                              email: string, password: string): Result<(int, string), DbError>
  {
    match FindUserByEmail(users, email)
    case None => Err(NoRows)
    case Some(k) =>
      match compareHash(users[k].password, password)
      case HashMismatch => Err(IncorrectPassword)
      case HashInvalid => Err(HashFailure)
      case HashMatch => Ok((users[k].id, users[k].password))
  }

  /** Authenticate fails for an unknown email and for a hash that does not
      match; when it succeeds it names a user with that email whose stored
      hash matches, and returns that user's id and hash. */
  lemma AuthenticateSound(users: seq<User>, compareHash: (string, string) -> HashCheck, email: string, password: string)
    ensures (forall j :: 0 <= j < |users| ==> users[j].email != email)
            ==> AuthenticateAnswer(users, compareHash, email, password) == Err(NoRows)
    ensures forall k :: (FirstWithEmail(users, email, k)
            ==> AuthenticateAnswer(users, compareHash, email, password) == Verdict(users[k], compareHash(users[k].password, password)))
    ensures AuthenticateAnswer(users, compareHash, email, password).Ok?
            <==> (exists k :: FirstWithEmail(users, email, k) && compareHash(users[k].password, password) == HashMatch)
  {
    var f := FindUserByEmail(users, email);
    forall k | FirstWithEmail(users, email, k)
      ensures f == Some(k)
    {
      assert f.Some?;
    }
    if f.Some? {
      assert FirstWithEmail(users, email, f.value);
    }
  }

  /** Index k holds the first user with the email. */
  predicate FirstWithEmail(users: seq<User>, email: string, k: int) {
    0 <= k < |users| && users[k].email == email && forall j :: 0 <= j < k ==> users[j].email != email
  }

  /** The answer for the user found, given bcrypt's verdict. */
  function Verdict(u: User, check: HashCheck): Result<(int, string), DbError> {
    match check
    case HashMatch => Ok((u.id, u.password))
    case HashMismatch => Err(IncorrectPassword)
    case HashInvalid => Err(HashFailure)
  }

  /** What UPDATE users ... WHERE id = u.id does to one row. */
  function UpdatedUser(row: User, u: User): User {
    if row.id == u.id
    then row.(firstName := u.firstName, lastName := u.lastName, email := u.email, accessLevel := u.accessLevel)
    else row
  }

  // ---------------------------------------------------------------------------
  // Reservation listings

  /** ORDER BY start_date DESC; rows with equal start dates keep table order. */
  predicate SortedByStartDesc(rows: seq<Reservation>) {
    forall i, j :: 0 <= i < j < |rows| ==> rows[i].startDate >= rows[j].startDate
  }

  /** No row starts after day d. */
  predicate StartsBy(rows: seq<Reservation>, d: Date) {
    forall i :: 0 <= i < |rows| ==> rows[i].startDate <= d
  }

  function InsertByStart(x: Reservation, rows: seq<Reservation>): seq<Reservation> {
    if rows == [] then [x]
    else if rows[0].startDate >= x.startDate then [rows[0]] + InsertByStart(x, rows[1..])
    else [x] + rows
  }

  function SortByStartDesc(rows: seq<Reservation>): seq<Reservation> {
    if rows == [] then [] else InsertByStart(rows[|rows| - 1], SortByStartDesc(rows[..|rows| - 1]))
  }

  lemma ConsSorted(h: Reservation, t: seq<Reservation>)
    requires SortedByStartDesc(t) && StartsBy(t, h.startDate)
    ensures SortedByStartDesc([h] + t)
  {
    var s := [h] + t;
    forall i, j | 0 <= i < j < |s| ensures s[i].startDate >= s[j].startDate {
      assert s[j] == t[j - 1];
      if i > 0 { assert s[i] == t[i - 1]; }
    }
  }

  lemma SortedHead(rows: seq<Reservation>)
    requires SortedByStartDesc(rows) && rows != []
    ensures StartsBy(rows, rows[0].startDate)
    ensures SortedByStartDesc(rows[1..]) && StartsBy(rows[1..], rows[0].startDate)
  {
    forall i | 0 <= i < |rows[1..]| ensures rows[1..][i].startDate <= rows[0].startDate {
      assert rows[1..][i] == rows[i + 1];
    }
  }

  lemma {:induction false} InsertByStartBound(x: Reservation, rows: seq<Reservation>, d: Date)
    requires StartsBy(rows, d) && x.startDate <= d
    ensures StartsBy(InsertByStart(x, rows), d)
    decreases |rows|
  {
    if rows != [] && rows[0].startDate >= x.startDate {
      assert StartsBy(rows[1..], d) by {
        forall i | 0 <= i < |rows[1..]| ensures rows[1..][i].startDate <= d {
          assert rows[1..][i] == rows[i + 1];
        }
      }
      InsertByStartBound(x, rows[1..], d);
      var t := InsertByStart(x, rows[1..]);
      var s := [rows[0]] + t;
      forall i | 0 <= i < |s| ensures s[i].startDate <= d {
        if i > 0 { assert s[i] == t[i - 1]; }
      }
    } else if rows != [] {
      var s := [x] + rows;
      forall i | 0 <= i < |s| ensures s[i].startDate <= d {
        if i > 0 { assert s[i] == rows[i - 1]; }
      }
    }
  }

  lemma {:induction false} InsertByStartSorted(x: Reservation, rows: seq<Reservation>)
    requires SortedByStartDesc(rows)
    ensures SortedByStartDesc(InsertByStart(x, rows))
    decreases |rows|
  {
    if rows != [] {
      SortedHead(rows);
      if rows[0].startDate >= x.startDate {
        InsertByStartSorted(x, rows[1..]);
        InsertByStartBound(x, rows[1..], rows[0].startDate);
        ConsSorted(rows[0], InsertByStart(x, rows[1..]));
      } else {
        assert StartsBy(rows, x.startDate);
        ConsSorted(x, rows);
      }
    }
  }

  lemma {:induction false} InsertByStartPerm(x: Reservation, rows: seq<Reservation>)
    ensures multiset(InsertByStart(x, rows)) == multiset(rows) + multiset{x}
    decreases |rows|
  {
    if rows != [] && rows[0].startDate >= x.startDate {
      InsertByStartPerm(x, rows[1..]);
      assert rows == [rows[0]] + rows[1..];
    }
  }

  /** The listing is sorted by start date, latest first. */
  lemma {:induction false} SortByStartDescSorted(rows: seq<Reservation>)
    ensures SortedByStartDesc(SortByStartDesc(rows))
    decreases |rows|
  {
    if rows != [] {
      var init := rows[..|rows| - 1];
      SortByStartDescSorted(init);
      InsertByStartSorted(rows[|rows| - 1], SortByStartDesc(init));
    }
  }

  /** The listing is a permutation of the table. */
  lemma {:induction false} SortByStartDescPerm(rows: seq<Reservation>)
    ensures multiset(SortByStartDesc(rows)) == multiset(rows)
    decreases |rows|
  {
    if rows != [] {
      var init := rows[..|rows| - 1];
      var x := rows[|rows| - 1];
      SortByStartDescPerm(init);
      InsertByStartPerm(x, SortByStartDesc(init));
      assert rows == init + [x];
      calc {
        multiset(SortByStartDesc(rows));
        multiset(InsertByStart(x, SortByStartDesc(init)));
        multiset(SortByStartDesc(init)) + multiset{x};
        multiset(init) + multiset{x};
        multiset(init + [x]);
      }
    }
  }

  /** WHERE processed = 0. */
  function Unprocessed(rows: seq<Reservation>): seq<Reservation> {
    if rows == [] then []
    else (if rows[0].processed == 0 then [rows[0]] else []) + Unprocessed(rows[1..])
  }

  lemma {:induction false} UnprocessedCons(h: Reservation, t: seq<Reservation>)
    ensures Unprocessed([h] + t) == (if h.processed == 0 then [h] else []) + Unprocessed(t)
  {
    assert ([h] + t)[1..] == t;
  }

  lemma {:induction false} UnprocessedStartsBy(rows: seq<Reservation>, d: Date)
    requires StartsBy(rows, d)
    ensures StartsBy(Unprocessed(rows), d)
    decreases |rows|
  {
    if rows != [] {
      assert StartsBy(rows[1..], d) by {
        forall i | 0 <= i < |rows[1..]| ensures rows[1..][i].startDate <= d {
          assert rows[1..][i] == rows[i + 1];
        }
      }
      UnprocessedStartsBy(rows[1..], d);
      var h: seq<Reservation> := if rows[0].processed == 0 then [rows[0]] else [];
      var t := Unprocessed(rows[1..]);
      forall i | 0 <= i < |h + t| ensures (h + t)[i].startDate <= d {
        if i >= |h| { assert (h + t)[i] == t[i - |h|]; }
      }
    }
  }

  lemma {:induction false} UnprocessedInsert(x: Reservation, rows: seq<Reservation>)
    requires SortedByStartDesc(rows)
    ensures Unprocessed(InsertByStart(x, rows))
         == if x.processed == 0 then InsertByStart(x, Unprocessed(rows)) else Unprocessed(rows)
    decreases |rows|
  {
    if rows == [] {
      assert Unprocessed([x]) == Unprocessed([x] + []);
      UnprocessedCons(x, []);
    } else {
      var r0 := rows[0];
      assert rows == [r0] + rows[1..];
      UnprocessedCons(r0, rows[1..]);
      SortedHead(rows);
      if r0.startDate >= x.startDate {
        UnprocessedInsert(x, rows[1..]);
        UnprocessedCons(r0, InsertByStart(x, rows[1..]));
        var ut := Unprocessed(rows[1..]);
        if r0.processed == 0 {
          assert ([r0] + ut)[1..] == ut;
        } else {
          assert [] + ut == ut;
        }
      } else {
        UnprocessedCons(x, rows);
        UnprocessedStartsBy(rows, r0.startDate);
      }
    }
  }

  lemma {:induction false} UnprocessedSnoc(rows: seq<Reservation>, x: Reservation)
    ensures Unprocessed(rows + [x]) == Unprocessed(rows) + (if x.processed == 0 then [x] else [])
    decreases |rows|
  {
    if rows != [] {
      UnprocessedSnoc(rows[1..], x);
      assert (rows + [x])[1..] == rows[1..] + [x];
    } else {
      assert [x][1..] == [];
    }
  }

  /** Filtering the sorted listing equals sorting the filtered table. */
  lemma {:induction false} UnprocessedSort(rows: seq<Reservation>)
    ensures Unprocessed(SortByStartDesc(rows)) == SortByStartDesc(Unprocessed(rows))
    decreases |rows|
  {
    if rows != [] {
      var init := rows[..|rows| - 1];
      var x := rows[|rows| - 1];
      assert rows == init + [x];
      UnprocessedSort(init);
      SortByStartDescSorted(init);
      UnprocessedInsert(x, SortByStartDesc(init));
      UnprocessedSnoc(init, x);
      var u := Unprocessed(init);
      if x.processed == 0 {
        assert (u + [x])[..|u + [x]| - 1] == u;
      } else {
        assert u + [] == u;
      }
    }
  }

  /** The LEFT JOIN with rooms finds a room for every row (otherwise a NULL
      room id is scanned into an int and the listing fails). */
  predicate AllRoomsKnown(rows: seq<Reservation>, rooms: seq<Room>) {
    forall i :: 0 <= i < |rows| ==> FindRoom(rooms, rows[i].roomId).Some?
  }

  function WithRoom(row: Reservation, rooms: seq<Room>): Reservation {
    match FindRoom(rooms, row.roomId)
    case Some(room) => row.(room := room)
    case None => row
  }

  function JoinAll(rows: seq<Reservation>, rooms: seq<Room>): seq<Reservation> {
    if rows == [] then [] else [WithRoom(rows[0], rooms)] + JoinAll(rows[1..], rooms)
  }

  lemma {:induction false} JoinAllSnoc(rows: seq<Reservation>, x: Reservation, rooms: seq<Room>)
    ensures JoinAll(rows + [x], rooms) == JoinAll(rows, rooms) + [WithRoom(x, rooms)]
    decreases |rows|
  {
    if rows == [] {
      assert [x][1..] == [];
    } else {
      assert (rows + [x])[1..] == rows[1..] + [x];
      JoinAllSnoc(rows[1..], x, rooms);
    }
  }

  function ListingAnswer(sorted: seq<Reservation>, rooms: seq<Room>): Result<seq<Reservation>, DbError> {
    if AllRoomsKnown(sorted, rooms) then Ok(JoinAll(sorted, rooms)) else Err(ScanFailure)
  }

  lemma {:induction false} JoinUnprocessed(rows: seq<Reservation>, rooms: seq<Room>)
    ensures Unprocessed(JoinAll(rows, rooms)) == JoinAll(Unprocessed(rows), rooms)
    ensures AllRoomsKnown(rows, rooms) ==> AllRoomsKnown(Unprocessed(rows), rooms)
    decreases |rows|
  {
    if rows != [] {
      var h := rows[0];
      var t := rows[1..];
      assert rows == [h] + t;
      JoinUnprocessed(t, rooms);
      UnprocessedCons(WithRoom(h, rooms), JoinAll(t, rooms));
      UnprocessedCons(h, t);
      if h.processed == 0 {
        assert JoinAll([h] + Unprocessed(t), rooms) == [WithRoom(h, rooms)] + JoinAll(Unprocessed(t), rooms) by {
          assert ([h] + Unprocessed(t))[1..] == Unprocessed(t);
        }
      } else {
        assert [] + Unprocessed(t) == Unprocessed(t);
      }
      if AllRoomsKnown(rows, rooms) {
        assert AllRoomsKnown(t, rooms) by {
          forall i | 0 <= i < |t| ensures FindRoom(rooms, t[i].roomId).Some? {
            assert t[i] == rows[i + 1];
          }
        }
        var hs: seq<Reservation> := if h.processed == 0 then [h] else [];
        var ut := Unprocessed(t);
        forall i | 0 <= i < |hs + ut| ensures FindRoom(rooms, (hs + ut)[i].roomId).Some? {
          if i >= |hs| { assert (hs + ut)[i] == ut[i - |hs|]; }
        }
      }
    }
  }

  /** The new-reservations listing is the full listing restricted to the
      unprocessed rows, in the same order, whenever the full one succeeds. */
  lemma NewListingIsFilteredListing(rows: seq<Reservation>, rooms: seq<Room>)
    requires ListingAnswer(SortByStartDesc(rows), rooms).Ok?
    ensures ListingAnswer(SortByStartDesc(Unprocessed(rows)), rooms)
         == Ok(Unprocessed(ListingAnswer(SortByStartDesc(rows), rooms).value))
  {
    UnprocessedSort(rows);
    JoinUnprocessed(SortByStartDesc(rows), rooms);
  }

  /** The row InsertReservation writes: the listed columns, the new id, and
      processed at its default 0. */
  function StoredReservation(res: Reservation, id: int): Reservation {
    Reservation(id, res.roomId, res.firstName, res.lastName, res.email, res.phone,
                NoRoom, res.startDate, res.endDate, 0)
  }

  function StoredRestriction(r: RoomRestriction, id: int): RoomRestriction {
    RoomRestriction(id, r.roomId, r.reservationId, r.restrictionId, r.startDate, r.endDate)
  }

  /** The contents of the four tables and the two serials at one moment. */
  datatype Tables = Tables(
    rooms: seq<Room>,
    reservations: seq<Reservation>,
    restrictions: seq<RoomRestriction>,
    users: seq<User>,
    nextReservationId: int,
    nextRestrictionId: int)

  class PostgresDbRepo {
    var rooms: seq<Room>
    var reservations: seq<Reservation>
    var restrictions: seq<RoomRestriction>
    var users: seq<User>
    var nextReservationId: int
    var nextRestrictionId: int
    /** bcrypt.CompareHashAndPassword (hash, password). */
    const compareHash: (string, string) -> HashCheck

    function Snapshot(): Tables
      reads this
    {
      Tables(rooms, reservations, restrictions, users, nextReservationId, nextRestrictionId)
    }

    /** Every id is positive and below its table's serial. */
    ghost predicate Valid()
      reads this
    {
      && 1 <= nextReservationId && 1 <= nextRestrictionId
      && (forall i :: 0 <= i < |reservations| ==> 1 <= reservations[i].id < nextReservationId)
      && (forall i :: 0 <= i < |restrictions| ==> 1 <= restrictions[i].id < nextRestrictionId)
    }

    constructor (rooms: seq<Room>, reservations: seq<Reservation>, restrictions: seq<RoomRestriction>,
                 users: seq<User>, nextReservationId: int, nextRestrictionId: int,
                 compareHash: (string, string) -> HashCheck)
      requires 1 <= nextReservationId && 1 <= nextRestrictionId
      requires forall i :: 0 <= i < |reservations| ==> 1 <= reservations[i].id < nextReservationId
      requires forall i :: 0 <= i < |restrictions| ==> 1 <= restrictions[i].id < nextRestrictionId
      ensures Valid()
      ensures this.rooms == rooms && this.reservations == reservations
      ensures this.restrictions == restrictions && this.users == users
      ensures this.nextReservationId == nextReservationId && this.nextRestrictionId == nextRestrictionId
      ensures this.compareHash == compareHash
    {
      this.rooms := rooms;
      this.reservations := reservations;
      this.restrictions := restrictions;
      this.users := users;
      this.nextReservationId := nextReservationId;
      this.nextRestrictionId := nextRestrictionId;
      this.compareHash := compareHash;
    }

    /** INSERT INTO reservations ... RETURNING id. */
    method InsertReservation(res: Reservation) returns (r: Result<int, DbError>)
      requires Valid()
      modifies this
      ensures Valid()
      ensures r.Ok? ==> (r.value == old(nextReservationId)
                         && reservations == old(reservations) + [StoredReservation(res, r.value)]
                         && nextReservationId == old(nextReservationId) + 1)
      ensures r.Ok? ==> forall i :: 0 <= i < |old(reservations)| ==> old(reservations)[i].id != r.value
      ensures r.Err? ==> (r.error == DriverFailure
                          && reservations == old(reservations) && nextReservationId == old(nextReservationId))
      ensures rooms == old(rooms) && restrictions == old(restrictions) && users == old(users)
      ensures nextRestrictionId == old(nextRestrictionId)
    {
      var reached: bool :| true;  // the statement ran before its 2-second deadline
      if !reached {
        return Err(DriverFailure);
      }
      var id := nextReservationId;
      reservations := reservations + [StoredReservation(res, id)];
      nextReservationId := nextReservationId + 1;
      return Ok(id);
    }

    /** INSERT INTO room_restrictions: one row copying the given fields. */
    method InsertRoomRestriction(x: RoomRestriction) returns (r: Result<(), DbError>)
      requires Valid()
      modifies this
      ensures Valid()
      ensures r.Ok? ==> (restrictions == old(restrictions) + [StoredRestriction(x, old(nextRestrictionId))]
                         && nextRestrictionId == old(nextRestrictionId) + 1)
      ensures r.Err? ==> (r.error == DriverFailure
                          && restrictions == old(restrictions) && nextRestrictionId == old(nextRestrictionId))
      ensures rooms == old(rooms) && reservations == old(reservations) && users == old(users)
      ensures nextReservationId == old(nextReservationId)
    {
      var reached: bool :| true;
      if !reached {
        return Err(DriverFailure);
      }
      restrictions := restrictions + [StoredRestriction(x, nextRestrictionId)];
      nextRestrictionId := nextRestrictionId + 1;
      return Ok(());
    }

    /** SELECT count(id) ... WHERE room_id = $1 AND $2 < end_date AND $3 > start_date:
        available exactly when the count is 0. */
    method SearchAvailabilityByRoomID(start: Date, end: Date, roomId: int) returns (r: Result<bool, DbError>)
      ensures r.Ok? ==> (r.value <==> RoomFree(restrictions, roomId, start, end))
      ensures r.Err? ==> r.error == DriverFailure
    {
      var reached: bool :| true;
      if !reached {
        return Err(DriverFailure);
      }
      var numRows: nat := 0;
      var i := 0;
      while i < |restrictions|
        invariant 0 <= i <= |restrictions|
        invariant numRows == 0 <==> forall k :: 0 <= k < i ==> !Blocks(restrictions[k], roomId, start, end)
      {
        var rr := restrictions[i];
        if rr.roomId == roomId && start < rr.endDate && end > rr.startDate {
          numRows := numRows + 1;
        }
        i := i + 1;
      }
      return Ok(numRows == 0);
    }

    /** SELECT r.id, r.room_name FROM rooms r WHERE r.id NOT IN (...overlapping
        restrictions' room_id...), appending each row as it is scanned. */
    method SearchAvailabilityAllRooms(start: Date, end: Date) returns (r: Result<seq<Room>, DbError>)
      ensures r.Ok? ==> r.value == FreeRooms(rooms, restrictions, start, end)
      ensures r.Err? ==> r.error == DriverFailure
    {
      var reached: bool :| true;
      if !reached {
        return Err(DriverFailure);
      }
      var blocked := BlockedRoomIds(restrictions, start, end);
      var found: seq<Room> := [];
      var i := 0;
      while i < |rooms|
        invariant 0 <= i <= |rooms|
        invariant found == FreeRooms(rooms[..i], restrictions, start, end)
      {
        assert rooms[..i + 1][..i] == rooms[..i];
        if rooms[i].id !in blocked {
          found := found + [rooms[i]];
        }
        i := i + 1;
      }
      assert rooms[..|rooms|] == rooms;
      return Ok(found);
    }

    /** SELECT ... FROM rooms WHERE id = $1: sql.ErrNoRows when absent. */
    method GetRoomById(id: int) returns (r: Result<Room, DbError>)
      ensures r.Ok? ==> r.value in rooms && r.value.id == id
      ensures r == RoomAnswer(rooms, id) || r == Err(DriverFailure)
      ensures r.Err? ==> r.error == DriverFailure || (r.error == NoRows && FindRoom(rooms, id).None?)
    {
      var reached: bool :| true;
      if !reached {
        return Err(DriverFailure);
      }
      var i := 0;
      while i < |rooms|
        invariant 0 <= i <= |rooms|
        invariant FindRoom(rooms, id) == FindRoom(rooms[i..], id)
      {
        if rooms[i].id == id {
          return Ok(rooms[i]);
        }
        assert rooms[i..][1..] == rooms[i + 1..];
        i := i + 1;
      }
      return Err(NoRows);
    }

    /** SELECT first_name, ..., updated_at FROM users WHERE id = $1. The id
        column is not selected, so the returned user's id is 0. */
    method GetUserById(id: int) returns (r: Result<User, DbError>)
      ensures r.Ok? ==> exists k :: 0 <= k < |users| && users[k].id == id && r.value == users[k].(id := 0)
      ensures r.Err? ==> (r.error == DriverFailure
                          || (r.error == NoRows && forall k :: 0 <= k < |users| ==> users[k].id != id))
    {
      var reached: bool :| true;
      if !reached {
        return Err(DriverFailure);
      }
      var i := 0;
      while i < |users|
        invariant 0 <= i <= |users|
        invariant forall k :: 0 <= k < i ==> users[k].id != id
      {
        if users[i].id == id {
          return Ok(users[i].(id := 0));
        }
        i := i + 1;
      }
      return Err(NoRows);
    }

    /** UPDATE users SET first_name, last_name, email, access_level WHERE id = u.id:
        every row with that id gets the four columns, nothing else changes;
        no matching row is not an error. */
    method UpdateUser(u: User) returns (r: Result<(), DbError>)
      requires Valid()
      modifies this
      ensures Valid()
      ensures r.Ok? ==> (|users| == |old(users)|
                         && forall k :: 0 <= k < |users| ==> users[k] == UpdatedUser(old(users)[k], u))
      ensures r.Err? ==> r.error == DriverFailure && users == old(users)
      ensures rooms == old(rooms) && reservations == old(reservations) && restrictions == old(restrictions)
      ensures nextReservationId == old(nextReservationId) && nextRestrictionId == old(nextRestrictionId)
    {
      var reached: bool :| true;
      if !reached {
        return Err(DriverFailure);
      }
      var updated: seq<User> := [];
      var i := 0;
      while i < |users|
        invariant 0 <= i <= |users|
        invariant |updated| == i
        invariant forall k :: 0 <= k < i ==> updated[k] == UpdatedUser(users[k], u)
      {
        updated := updated + [UpdatedUser(users[i], u)];
        i := i + 1;
      }
      users := updated;
      return Ok(());
    }

    /** SELECT id, password FROM users WHERE email = $1, then bcrypt. */
    method Authenticate(email: string, password: string) returns (r: Result<(int, string), DbError>)
      ensures r == AuthenticateAnswer(users, compareHash, email, password) || r == Err(DriverFailure)
    {
      var reached: bool :| true;
      if !reached {
        return Err(DriverFailure);
      }
      var i := 0;
      while i < |users|
        invariant 0 <= i <= |users|
        invariant forall k :: 0 <= k < i ==> users[k].email != email
      {
        if users[i].email == email {
          var hashPass := users[i].password;
          var check := compareHash(hashPass, password);
          assert FindUserByEmail(users, email) == Some(i) by {
            AuthenticateSound(users, compareHash, email, password);
          }
          if check == HashMismatch {
            return Err(IncorrectPassword);
          } else if check == HashInvalid {
            return Err(HashFailure);
          }
          return Ok((users[i].id, hashPass));
        }
        i := i + 1;
      }
      return Err(NoRows);
    }

    /** The rows of an ordered listing joined with their rooms, one at a time
        as rows.Next() yields them. */
    method ScanListing(sorted: seq<Reservation>) returns (r: Result<seq<Reservation>, DbError>)
      ensures r == ListingAnswer(sorted, rooms)
    {
      var acc: seq<Reservation> := [];
      var i := 0;
      while i < |sorted|
        invariant 0 <= i <= |sorted|
        invariant AllRoomsKnown(sorted[..i], rooms)
        invariant acc == JoinAll(sorted[..i], rooms)
      {
        var room := FindRoom(rooms, sorted[i].roomId);
        if room.None? {
          return Err(ScanFailure);
        }
        assert sorted[..i + 1] == sorted[..i] + [sorted[i]];
        JoinAllSnoc(sorted[..i], sorted[i], rooms);
        acc := acc + [sorted[i].(room := room.value)];
        i := i + 1;
      }
      assert sorted[..i] == sorted;
      return Ok(acc);
    }

    /** Every reservation joined with its room, latest start date first. */
    method AllReservations() returns (r: Result<seq<Reservation>, DbError>)
      ensures r == ListingAnswer(SortByStartDesc(reservations), rooms) || r == Err(DriverFailure)
    {
      var reached: bool :| true;
      if !reached {
        return Err(DriverFailure);
      }
      r := ScanListing(SortByStartDesc(reservations));
    }

    /** The reservations with processed = 0, in the same order. */
    method AllNewReservations() returns (r: Result<seq<Reservation>, DbError>)
      ensures r == ListingAnswer(SortByStartDesc(Unprocessed(reservations)), rooms) || r == Err(DriverFailure)
    {
      var reached: bool :| true;
      if !reached {
        return Err(DriverFailure);
      }
      r := ScanListing(SortByStartDesc(Unprocessed(reservations)));
    }
  }
}
