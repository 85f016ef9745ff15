/**
 * The store interface the handlers call (internal/repository/repository.go),
 * with its two implementations: the PostgreSQL store and the fake store of
 * the handler tests. Each method here forwards to the implementation the
 * repository holds and says what that implementation answers.
 */
module Repository {
  import opened Models
  import opened PostgresRepo
  import FakeRepo

  datatype DbRepo = Postgres(pg: PostgresDbRepo) | TestRepo

  /** The objects a store call may change: the fake store has none. */
  function Footprint(db: DbRepo): set<object> {
    if db.Postgres? then {db.pg} else {}
  }

  ghost predicate Valid(db: DbRepo)
    reads Footprint(db)
  {
    db.Postgres? ==> db.pg.Valid()
  }

  /** The tables behind the store; the fake store has none, so it is always
      the same empty snapshot. */
  function Snapshot(db: DbRepo): Tables
    reads Footprint(db)
  {
    if db.Postgres? then db.pg.Snapshot() else Tables([], [], [], [], 1, 1)
  }

  /** The tables after InsertReservation answered r. */
  function AfterReservation(t: Tables, res: Reservation, r: Result<int, DbError>): Tables {
    if r.Ok?
    then t.(reservations := t.reservations + [StoredReservation(res, t.nextReservationId)],
            nextReservationId := t.nextReservationId + 1)
    else t
  }

  /** The tables after InsertRoomRestriction answered r. */
  function AfterRestriction(t: Tables, x: RoomRestriction, r: Result<(), DbError>): Tables {
    if r.Ok?
    then t.(restrictions := t.restrictions + [StoredRestriction(x, t.nextRestrictionId)],
            nextRestrictionId := t.nextRestrictionId + 1)
    else t
  }

  // Each store call answers the value of its Answer function, except that
  // a call to PostgreSQL may also fail in the driver.

  function InsertReservationAnswer(db: DbRepo, res: Reservation): Result<int, DbError>
    reads Footprint(db)
  {
    if db.Postgres? then Ok(db.pg.nextReservationId) else FakeRepo.InsertReservation(res)
  }

  function InsertRoomRestrictionAnswer(db: DbRepo, x: RoomRestriction): Result<(), DbError> {
    if db.Postgres? then Ok(()) else FakeRepo.InsertRoomRestriction(x)
  }

  function AvailabilityAnswer(db: DbRepo, start: Date, end: Date, roomId: int): Result<bool, DbError>
    reads Footprint(db)
  {
    if db.Postgres? then Ok(RoomFree(db.pg.restrictions, roomId, start, end))
    else FakeRepo.SearchAvailabilityByRoomID(start, end, roomId)
  }

  function AllRoomsAnswer(db: DbRepo, start: Date, end: Date): Result<seq<Room>, DbError>
    reads Footprint(db)
  {
    if db.Postgres? then Ok(FreeRooms(db.pg.rooms, db.pg.restrictions, start, end))
    else FakeRepo.SearchAvailabilityAllRooms(start, end)
  }

  function RoomByIdAnswer(db: DbRepo, id: int): Result<Room, DbError>
    reads Footprint(db)
  {
    if db.Postgres? then RoomAnswer(db.pg.rooms, id) else FakeRepo.GetRoomById(id)
  }

  method InsertReservation(db: DbRepo, res: Reservation) returns (r: Result<int, DbError>)
    requires Valid(db)
    modifies Footprint(db)
    ensures Valid(db)
    ensures r == old(InsertReservationAnswer(db, res)) || (db.Postgres? && r == Err(DriverFailure))
    ensures Snapshot(db) == AfterReservation(old(Snapshot(db)), res, if db.Postgres? then r else Err(DriverFailure))
  {
    if db.Postgres? {
      r := db.pg.InsertReservation(res);
    } else {
      r := FakeRepo.InsertReservation(res);
    }
  }

  method InsertRoomRestriction(db: DbRepo, x: RoomRestriction) returns (r: Result<(), DbError>)
    requires Valid(db)
    modifies Footprint(db)
    ensures Valid(db)
    ensures r == InsertRoomRestrictionAnswer(db, x) || (db.Postgres? && r == Err(DriverFailure))
    ensures Snapshot(db) == AfterRestriction(old(Snapshot(db)), x, if db.Postgres? then r else Err(DriverFailure))
  {
    if db.Postgres? {
      r := db.pg.InsertRoomRestriction(x);
      if r.Ok? {
        assert r.value == ();
      }
    } else {
      r := FakeRepo.InsertRoomRestriction(x);
    }
  }

  method SearchAvailabilityByRoomID(db: DbRepo, start: Date, end: Date, roomId: int) returns (r: Result<bool, DbError>)
    ensures r == AvailabilityAnswer(db, start, end, roomId) || (db.Postgres? && r == Err(DriverFailure))
  {
    if db.Postgres? {
      r := db.pg.SearchAvailabilityByRoomID(start, end, roomId);
    } else {
      r := FakeRepo.SearchAvailabilityByRoomID(start, end, roomId);
    }
  }

  method SearchAvailabilityAllRooms(db: DbRepo, start: Date, end: Date) returns (r: Result<seq<Room>, DbError>)
    ensures r == AllRoomsAnswer(db, start, end) || (db.Postgres? && r == Err(DriverFailure))
  {
    if db.Postgres? {
      r := db.pg.SearchAvailabilityAllRooms(start, end);
    } else {
      r := FakeRepo.SearchAvailabilityAllRooms(start, end);
    }
  }

  method GetRoomById(db: DbRepo, id: int) returns (r: Result<Room, DbError>)
    ensures r == RoomByIdAnswer(db, id) || (db.Postgres? && r == Err(DriverFailure))
  {
    if db.Postgres? {
      r := db.pg.GetRoomById(id);
    } else {
      r := FakeRepo.GetRoomById(id);
    }
  }

  /** The fake store has no Authenticate, so its answer is left open. */
  method Authenticate(db: DbRepo, email: string, password: string) returns (r: Result<(int, string), DbError>)
    ensures db.Postgres? ==> (r == AuthenticateAnswer(db.pg.users, db.pg.compareHash, email, password)
                              || r == Err(DriverFailure))
  {
    if db.Postgres? {
      r := db.pg.Authenticate(email, password);
    } else {
      r :| true;
    }
  }
}
