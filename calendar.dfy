/**
 * The day maps of the admin reservations calendar (AdminReservationsCalendar
 * in internal/handlers/handlers.go). For one room and one month there are two
 * maps from day to int: the reservation map holds, for each day, the id of a
 * reservation occupying it, and the block map holds the id of an owner block
 * starting that day; 0 means free. Both start with a 0 for every day of the
 * month and are then filled from the room's restriction rows, in order.
 *
 * The Go maps are keyed by the day formatted as "2006-01-02"; that format is
 * one-to-one on days, so here they are keyed by the day itself.
 */
module Calendar {
  import opened Models
  import opened Text

  /** A 0 for every day from `first` through `first + days - 1`. */
  function Zeroed(first: Date, days: int): (m: map<Date, int>)
    ensures forall d :: d in m <==> first <= d < first + days
    ensures forall d :: d in m ==> m[d] == 0
    decreases days
  {
    if days <= 0 then map[] else Zeroed(first, days - 1)[first + days - 1 := 0]
  }

  /** `m` with every day from s through e (inclusive) set to v. */
  function Paint(m: map<Date, int>, s: Date, e: Date, v: int): (r: map<Date, int>)
    ensures forall d :: d in r <==> d in m || s <= d <= e
    ensures forall d :: d in r ==> r[d] == if s <= d <= e then v else m[d]
    decreases e - s
  {
    if e < s then m else Paint(m, s, e - 1, v)[e := v]
  }

  /** One restriction's effect on the reservation map. */
  function ReservationStep(m: map<Date, int>, y: RoomRestriction): map<Date, int> {
    if y.reservationId != 0 then Paint(m, y.startDate, y.endDate, y.reservationId) else m
  }

  /** One restriction's effect on the block map. */
  function BlockStep(m: map<Date, int>, y: RoomRestriction): map<Date, int> {
    if y.reservationId == 0 then m[y.startDate := y.id] else m
  }

  function FillReservations(m: map<Date, int>, rs: seq<RoomRestriction>): map<Date, int>
    decreases |rs|
  {
    if rs == [] then m else ReservationStep(FillReservations(m, rs[..|rs| - 1]), rs[|rs| - 1])
  }

  function FillBlocks(m: map<Date, int>, rs: seq<RoomRestriction>): map<Date, int>
    decreases |rs|
  {
    if rs == [] then m else BlockStep(FillBlocks(m, rs[..|rs| - 1]), rs[|rs| - 1])
  }

  /** The reservation id of the last reservation row covering day d. */
  function LastReservationOn(rs: seq<RoomRestriction>, d: Date): (r: Option<int>)
    ensures r.Some? ==> r.value != 0
    decreases |rs|
  {
    if rs == [] then None
    else
      var y := rs[|rs| - 1];
      if y.reservationId != 0 && y.startDate <= d <= y.endDate then Some(y.reservationId)
      else LastReservationOn(rs[..|rs| - 1], d)
  }

  /** The row id of the last owner block starting on day d. */
  function LastBlockOn(rs: seq<RoomRestriction>, d: Date): Option<int>
    decreases |rs|
  {
    if rs == [] then None
    else
      var y := rs[|rs| - 1];
      if y.reservationId == 0 && y.startDate == d then Some(y.id)
      else LastBlockOn(rs[..|rs| - 1], d)
  }

  /** Every day a reservation row covers, from its start through its end,
      carries the id of the last such row; every other day keeps what it had. */
  lemma {:induction false} FillReservationsAt(m: map<Date, int>, rs: seq<RoomRestriction>, d: Date)
    ensures d in FillReservations(m, rs) <==> d in m || LastReservationOn(rs, d).Some?
    ensures d in FillReservations(m, rs) ==>
      FillReservations(m, rs)[d] == match LastReservationOn(rs, d) case Some(v) => v case None => m[d]
    decreases |rs|
  {
    if rs != [] {
      FillReservationsAt(m, rs[..|rs| - 1], d);
    }
  }

  /** An owner block puts its own row id on its start day only; the last
      block starting on a day wins; every other day keeps what it had. */
  lemma {:induction false} FillBlocksAt(m: map<Date, int>, rs: seq<RoomRestriction>, d: Date)
    ensures d in FillBlocks(m, rs) <==> d in m || LastBlockOn(rs, d).Some?
    ensures d in FillBlocks(m, rs) ==>
      FillBlocks(m, rs)[d] == match LastBlockOn(rs, d) case Some(v) => v case None => m[d]
    decreases |rs|
  {
    if rs != [] {
      FillBlocksAt(m, rs[..|rs| - 1], d);
    }
  }

  /** The maps of one room for the month: every day of the month is a key of
      both; a day holds the id of the last reservation or block on it and 0
      when there is none; a reservation reaching outside the month adds the
      days outside it as well. */
  lemma MonthMaps(first: Date, days: int, rs: seq<RoomRestriction>, d: Date)
    ensures var res := FillReservations(Zeroed(first, days), rs);
            (d in res <==> (first <= d < first + days) || LastReservationOn(rs, d).Some?)
            && (d in res ==> res[d] == match LastReservationOn(rs, d) case Some(v) => v case None => 0)
    ensures var blocks := FillBlocks(Zeroed(first, days), rs);
            (d in blocks <==> (first <= d < first + days) || LastBlockOn(rs, d).Some?)
            && (d in blocks ==> blocks[d] == match LastBlockOn(rs, d) case Some(v) => v case None => 0)
  {
    FillReservationsAt(Zeroed(first, days), rs, d);
    FillBlocksAt(Zeroed(first, days), rs, d);
  }

  /** The first loop of the handler: a 0 for each day of the month, from
      the first day while the day is not after the last. */
  method ZeroMonth(first: Date, days: int) returns (m: map<Date, int>)
    ensures m == Zeroed(first, days)
  {
    var last := first + days - 1;
    m := map[];
    var d := first;
    while d <= last
      invariant first <= d && (days > 0 ==> d <= last + 1) && (days <= 0 ==> d == first)
      invariant m == Zeroed(first, d - first)
      decreases last - d
    {
      m := m[d := 0];
      d := d + 1;
    }
  }

  /** The innermost loop: a reservation's id on each day from its start
      while the day is not after its end. */
  method PaintDays(m0: map<Date, int>, s: Date, e: Date, v: int) returns (m: map<Date, int>)
    ensures m == Paint(m0, s, e, v)
  {
    m := m0;
    var d := s;
    while d <= e
      invariant d >= s
      invariant s <= e ==> d <= e + 1
      invariant s > e ==> d == s
      invariant m == Paint(m0, s, d - 1, v)
      decreases e - d
    {
      m := m[d := v];
      d := d + 1;
    }
  }

  /** The nested loops of the handler for one room: zero every day of the
      month, then walk the restriction rows, painting each reservation's days
      and writing each block at its start day. */
  method BuildDayMaps(first: Date, days: int, rs: seq<RoomRestriction>)
    returns (resMap: map<Date, int>, blockMap: map<Date, int>)
    ensures resMap == FillReservations(Zeroed(first, days), rs)
    ensures blockMap == FillBlocks(Zeroed(first, days), rs)
  {
    resMap := ZeroMonth(first, days);
    blockMap := ZeroMonth(first, days);
    var j := 0;
    while j < |rs|
      invariant 0 <= j <= |rs|
      invariant resMap == FillReservations(Zeroed(first, days), rs[..j])
      invariant blockMap == FillBlocks(Zeroed(first, days), rs[..j])
    {
      var y := rs[j];
      assert rs[..j + 1][..j] == rs[..j] && rs[..j + 1][j] == y;
      if y.reservationId != 0 {
        resMap := PaintDays(resMap, y.startDate, y.endDate, y.reservationId);
      } else {
        blockMap := blockMap[y.startDate := y.id];
      }
      j := j + 1;
    }
    assert rs[..j] == rs;
  }

  /** The session key each room's block map is saved under, and the template
      data key of its reservation map (fmt.Sprintf with %d). */
  function BlockMapKey(roomId: int): string {
    "block_map_" + Itoa(roomId)
  }

  function ReservationMapKey(roomId: int): string {
    "reservation_map_" + Itoa(roomId)
  }

  /** Rooms with different ids save their block maps under different keys,
      and no block map key is a reservation map key. */
  lemma MapKeysDistinct(a: int, b: int)
    requires IsInt(a) && IsInt(b)
    ensures BlockMapKey(a) == BlockMapKey(b) ==> a == b
    ensures ReservationMapKey(a) == ReservationMapKey(b) ==> a == b
    ensures BlockMapKey(a) != ReservationMapKey(b)
  {
    var p := "block_map_";
    var q := "reservation_map_";
    if BlockMapKey(a) == BlockMapKey(b) {
      assert Itoa(a) == BlockMapKey(a)[|p|..];
      assert Itoa(b) == BlockMapKey(b)[|p|..];
      ItoaInjective(a, b);
    }
    if ReservationMapKey(a) == ReservationMapKey(b) {
      assert Itoa(a) == ReservationMapKey(a)[|q|..];
      assert Itoa(b) == ReservationMapKey(b)[|q|..];
      ItoaInjective(a, b);
    }
    assert BlockMapKey(a)[0] == 'b' && ReservationMapKey(b)[0] == 'r';
  }
}
