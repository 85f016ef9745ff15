/**
 * The per-browser session (the scs session manager) as a mutable map from key
 * to a typed value. Keys the application uses: "reservation" (the booking
 * draft), "flash" / "error" / "warning" (one-shot messages), "user_id" and
 * "block_map_<room id>" (the admin calendar's owner blocks).
 */
module Sessions {
  import opened Models

  datatype Value =
    | Draft(reservation: Reservation)
    | BlockMap(days: map<Date, int>)
    | Str(s: string)
    | Int(n: int)

  const DraftKey: string := "reservation"

  /** The booking draft a session map holds: Some only when the
      "reservation" slot holds a reservation. */
  function DraftIn(data: map<string, Value>): Option<Reservation> {
    if DraftKey in data && data[DraftKey].Draft? then Some(data[DraftKey].reservation) else None
  }

  /** Storing a draft makes it the one the next handler reads. */
  lemma DraftInPut(data: map<string, Value>, d: Reservation)
    ensures DraftKey in data[DraftKey := Draft(d)]
    ensures DraftIn(data[DraftKey := Draft(d)]) == Some(d)
  {
  }

  /** Writing any other key (a flash message, a block map) leaves the draft. */
  lemma DraftInOtherKey(data: map<string, Value>, key: string, v: Value)
    requires key != DraftKey
    ensures DraftIn(data[key := v]) == DraftIn(data)
    ensures DraftIn(data - {key}) == DraftIn(data)
  {
  }

  /** Removing the slot (the summary page) leaves no draft. */
  lemma DraftInRemove(data: map<string, Value>)
    ensures DraftKey !in data - {DraftKey}
    ensures DraftIn(data - {DraftKey}) == None
  {
  }

  class Session {
    var data: map<string, Value>

    constructor ()
      ensures data == map[]
    {
      data := map[];
    }

    method Put(key: string, v: Value)
      modifies this
      ensures data == old(data)[key := v]
      ensures Exists(key)
      ensures key == DraftKey ==> GetDraft() == (if v.Draft? then Some(v.reservation) else None)
      ensures key != DraftKey ==> GetDraft() == old(GetDraft())
    {
      data := data[key := v];
    }

    method Remove(key: string)
      modifies this
      ensures data == old(data) - {key}
      ensures !Exists(key)
      ensures key == DraftKey ==> GetDraft() == None
      ensures key != DraftKey ==> GetDraft() == old(GetDraft())
    {
      data := data - {key};
    }

    function Exists(key: string): (b: bool)
      reads this
      ensures b <==> key in data
    {
      key in data
    }

    /** PopString: removes the key whatever it holds, and returns its value
        when that value is a string, "" otherwise. */
    method PopString(key: string) returns (s: string)
      modifies this
      ensures data == old(data) - {key}
      ensures key in old(data) && old(data)[key].Str? ==> s == old(data)[key].s
      ensures !(key in old(data) && old(data)[key].Str?) ==> s == ""
    {
      s := if key in data && data[key].Str? then data[key].s else "";
      data := data - {key};
    }

    /** The typed read of the "reservation" slot: Some only when the slot
        holds a reservation (the `.(models.Reservation)` assertion with ok). */
    function GetDraft(): (d: Option<Reservation>)
      reads this
      ensures d.Some? <==> DraftKey in data && data[DraftKey].Draft?
      ensures d.Some? ==> data[DraftKey] == Draft(d.value)
    {
      DraftIn(data)
    }
  }
}
