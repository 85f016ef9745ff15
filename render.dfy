/**
 * The rendering helpers of internal/render/render.go: the `iterate` template
 * function, the default data every page receives, and the lookup of a page
 * in the template cache. Parsing and executing templates is not modelled;
 * whether executing a found template succeeds is left open.
 */
module Render {
  import opened Models
  import opened Sessions

  const FlashKey: string := "flash"
  const ErrorKey: string := "error"
  const WarningKey: string := "warning"
  const UserIdKey: string := "user_id"

  /** IterateDays(count): the day numbers 1..count that the calendar
      template iterates over. `count + 1` is a Go int addition, so for the
      largest int it wraps to the smallest and the list is empty. */
  method IterateDays(count: int) returns (items: seq<int>)
    requires IsInt(count)
    ensures count < MaxInt ==> |items| == (if count > 0 then count else 0)
    ensures count == MaxInt ==> items == []
    ensures forall i :: 0 <= i < |items| ==> items[i] == i + 1
  {
    var bound := Wrap(count + 1);
    assert count < MaxInt ==> bound == count + 1;
    assert count == MaxInt ==> bound == MinInt;
    items := [];
    var i := 1;
    while i < bound
      invariant 1 <= i
      invariant bound > 1 ==> i <= bound
      invariant bound <= 1 ==> i == 1
      invariant |items| == i - 1
      invariant forall k :: 0 <= k < |items| ==> items[k] == k + 1
      decreases bound - i
    {
      items := items + [i];
      i := i + 1;
    }
  }

  /** The string PopString finds under a key ("" for a missing or non-string value). */
  function StringAt(data: map<string, Value>, key: string): string {
    if key in data && data[key].Str? then data[key].s else ""
  }

  /** The session after the three one-shot messages are popped. */
  function Popped(data: map<string, Value>): map<string, Value> {
    data - {FlashKey, ErrorKey, WarningKey}
  }

  /** The template data AddDefaultData produces from the session contents. */
  function DefaultData(td: TemplateData, data: map<string, Value>, csrfToken: string): TemplateData {
    td.(flash := StringAt(data, FlashKey),
        error := StringAt(data, ErrorKey),
        warning := StringAt(data, WarningKey),
        csrfToken := csrfToken,
        isAuthenticated := if UserIdKey in data then 1 else td.isAuthenticated)
  }

  /** A one-shot message is shown once: rendering again from the popped
      session finds all three messages empty, and popping again changes
      nothing. */
  lemma MessagesShownOnce(td: TemplateData, data: map<string, Value>, csrfToken: string)
    ensures var again := DefaultData(td, Popped(data), csrfToken);
            again.flash == "" && again.error == "" && again.warning == ""
    ensures Popped(Popped(data)) == Popped(data)
    ensures forall k :: k in data && k !in {FlashKey, ErrorKey, WarningKey} ==> k in Popped(data) && Popped(data)[k] == data[k]
  {
  }

  /** IsAuthenticated is 1 when the session has a user id and is otherwise
      what the handler put there. */
  lemma AuthenticatedFlag(td: TemplateData, data: map<string, Value>, csrfToken: string)
    ensures UserIdKey in data ==> DefaultData(td, data, csrfToken).isAuthenticated == 1
    ensures UserIdKey !in data ==> DefaultData(td, data, csrfToken).isAuthenticated == td.isAuthenticated
    ensures UserIdKey in Popped(data) <==> UserIdKey in data
  {
  }

  /** AddDefaultData: pops flash, error and warning into the data, sets the
      CSRF token (nosurf.Token of the request, a parameter here) and the
      authentication flag. */
  method AddDefaultData(td: TemplateData, session: Session, csrfToken: string) returns (r: TemplateData)
    modifies session
    ensures r == DefaultData(td, old(session.data), csrfToken)
    ensures session.data == Popped(old(session.data))
  {
    r := td;
    var flash := session.PopString(FlashKey);
    var error := session.PopString(ErrorKey);
    var warning := session.PopString(WarningKey);
    r := r.(flash := flash, error := error, warning := warning, csrfToken := csrfToken);
    if session.Exists(UserIdKey) {
      r := r.(isAuthenticated := 1);
    }
  }

  datatype RenderError = NotInCache | ExecutionFailed

  /** Template: a page missing from the cache is an error and nothing else
      happens (the session keeps its messages); a page found gets the
      default data, executed with it, unless execution fails. */
  method Template(session: Session, cache: set<string>, name: string, td: TemplateData, csrfToken: string)
    returns (r: Result<TemplateData, RenderError>)
    modifies session
    ensures name !in cache ==> r == Err(NotInCache) && session.data == old(session.data)
    ensures name in cache ==> session.data == Popped(old(session.data))
    ensures name in cache ==> r == Ok(DefaultData(td, old(session.data), csrfToken)) || r == Err(ExecutionFailed)
  {
    if name !in cache {
      return Err(NotInCache);
    }
    var filled := AddDefaultData(td, session, csrfToken);
    var executed: bool :| true;  // t.Execute and the write to the response
    if !executed {
      return Err(ExecutionFailed);
    }
    return Ok(filled);
  }
}
