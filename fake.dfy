/**
 * The store the handler tests run against (internal/repository/dbrepo/test_repo.go).
 * It keeps no state: every answer is a fixed function of the arguments, with
 * a few argument values wired to fail.
 */
module FakeRepo {
  import opened Models

  const InsertReservationFailure: string := "failed to insert reservation into database"
  const InsertRestrictionFailure: string := "failed to insert room restriction into database"
  const SearchFailure: string := "failed to search availability"
  const RoomFailure: string := "some error"

  /** Fails exactly for room 4; otherwise every reservation gets id 1. */
  function InsertReservation(res: Reservation): (r: Result<int, DbError>)
    ensures r.Err? <==> res.roomId == 4
    ensures r.Ok? ==> r.value == 1
    ensures r.Err? ==> r.error == Failed(InsertReservationFailure)
  {
    if res.roomId == 4 then Err(Failed(InsertReservationFailure)) else Ok(1)
  }

  /** Fails exactly for room 3. */
  function InsertRoomRestriction(x: RoomRestriction): (r: Result<(), DbError>)
    ensures r.Err? <==> x.roomId == 3
    ensures r.Err? ==> r.error == Failed(InsertRestrictionFailure)
  {
    if x.roomId == 3 then Err(Failed(InsertRestrictionFailure)) else Ok(())
  }

  /** Fails exactly for room 1000 and never reports a room as available. */
  function SearchAvailabilityByRoomID(start: Date, end: Date, roomId: int): (r: Result<bool, DbError>)
    ensures r.Err? <==> roomId == 1000
    ensures r.Ok? ==> !r.value
    ensures r.Err? ==> r.error == Failed(SearchFailure)
  {
    if roomId == 1000 then Err(Failed(SearchFailure)) else Ok(false)
  }

  /** Always succeeds with no rooms. */
  function SearchAvailabilityAllRooms(start: Date, end: Date): (r: Result<seq<Room>, DbError>)
    ensures r.Ok? && |r.value| == 0
  {
    Ok([])
  }

  /** Fails for every id above 2; otherwise answers with the zero room. */
  function GetRoomById(id: int): (r: Result<Room, DbError>)
    ensures r.Err? <==> id > 2
    ensures r.Ok? ==> r.value.id == 0 && r.value.roomName == ""
    ensures r.Err? ==> r.error == Failed(RoomFailure)
  {
    if id > 2 then Err(Failed(RoomFailure)) else Ok(NoRoom)
  }
}
