/**
 * Server-side form validation (internal/forms/forms.go, internal/forms/errors.go).
 *
 * A form holds the posted values and an error map from field name to the
 * messages recorded against it. The error map is a Go map, so the checks
 * change it in place: here it is an object (`Errors`) that the form refers to.
 * The map-level functions `Added`, `First` and `AddAll` give the meaning of
 * the in-place operations and carry the lemmas.
 */
module Forms {
  import opened Models
  import opened Text

  /** url.Values: every field may be posted several times. */
  type Values = map<string, seq<string>>

  type Messages = map<string, seq<string>>

  /** url.Values.Get: the first value posted for the field, or "". */
  function FormValue(v: Values, field: string): (s: string)
    ensures field in v && |v[field]| > 0 ==> s == v[field][0]
    ensures !(field in v && |v[field]| > 0) ==> s == ""
  {
    if field in v && |v[field]| > 0 then v[field][0] else ""
  }

  /** The messages recorded against a field (a missing key reads as none). */
  function Lookup(m: Messages, field: string): seq<string> {
    if field in m then m[field] else []
  }

  /** Request.ParseForm's r.Form: for every field, the values posted in the
      body followed by the values of the URL query (copyValues appends). */
  function Combined(post: Values, query: Values): Values {
    map f | f in post.Keys + query.Keys :: Lookup(post, f) + Lookup(query, f)
  }

  /** A field's values extended at the end keep their first value: r.Form.Get
      answers the body's value when the body has one, the query's otherwise. */
  lemma CombinedFormValue(post: Values, query: Values, field: string)
    ensures FormValue(Combined(post, query), field)
         == (if field in post && |post[field]| > 0 then post[field][0] else FormValue(query, field))
  {
    var v := Combined(post, query);
    if field in post && |post[field]| > 0 {
      assert v[field] == post[field] + Lookup(query, field);
    } else if field in query {
      assert v[field] == Lookup(post, field) + query[field];
      assert Lookup(post, field) == [];
    }
  }

  /** Without a query r.Form is the body's values. */
  lemma CombinedNoQuery(post: Values)
    ensures Combined(post, map[]) == post
  {
    var v := Combined(post, map[]);
    assert v.Keys == post.Keys;
    forall f | f in post ensures v[f] == post[f] {
      assert v[f] == post[f] + [];
    }
  }

  /** errors.Add on a map value: append to that field's list, nothing else. */
  function Added(m: Messages, field: string, message: string): (r: Messages)
    ensures r.Keys == m.Keys + {field}
    ensures Lookup(r, field) == Lookup(m, field) + [message]
    ensures forall f :: f != field ==> Lookup(r, f) == Lookup(m, f)
  {
    m[field := Lookup(m, field) + [message]]
  }

  /** errors.Get on a map value: the field's first message, or "". */
  function First(m: Messages, field: string): string {
    if Lookup(m, field) == [] then "" else Lookup(m, field)[0]
  }

  /** A run of errors.Add calls, in order. */
  function AddAll(m: Messages, adds: seq<(string, string)>): Messages
    decreases |adds|
  {
    if adds == [] then m else AddAll(Added(m, adds[0].0, adds[0].1), adds[1..])
  }

  /** Adding never takes a message away: every field's old list is a prefix
      of its new one, and no key disappears. */
  lemma {:induction false} AddAllExtends(m: Messages, adds: seq<(string, string)>, field: string)
    ensures Lookup(m, field) <= Lookup(AddAll(m, adds), field)
    ensures m.Keys <= AddAll(m, adds).Keys
    decreases |adds|
  {
    if adds != [] {
      var m' := Added(m, adds[0].0, adds[0].1);
      AddAllExtends(m', adds[1..], field);
    }
  }

  /** Get returns the first message ever added to a field, however many
      messages are added after it, to that field or any other. */
  lemma FirstEverAdded(m: Messages, field: string, message: string, later: seq<(string, string)>)
    requires Lookup(m, field) == []
    ensures First(AddAll(m, [(field, message)] + later), field) == message
  {
    var adds := [(field, message)] + later;
    assert adds[1..] == later;
    AddAllExtends(Added(m, field, message), later, field);
  }

  const BlankMessage: string := "This field cannot be blank"
  const EmailMessage: string := "Invalid email adress"

  function MinLengthMessage(length: int): string {
    "This field must be at least " + Itoa(length) + " characters long"
  }

  /** The condition Required tests: the value trims to "" (see TrimSpaceEmpty),
      that is, it is empty or all white space. */
  predicate IsBlank(v: Values, field: string) {
    AllSpace(FormValue(v, field))
  }

  /** The effect of Required(fields...) on the error map, field by field. */
  function NoteBlanks(m: Messages, v: Values, fields: seq<string>): Messages
    decreases |fields|
  {
    if fields == [] then m
    else
      var m' := if IsBlank(v, fields[0]) then Added(m, fields[0], BlankMessage) else m;
      NoteBlanks(m', v, fields[1..])
  }

  function Count(fields: seq<string>, field: string): nat {
    if fields == [] then 0 else (if fields[0] == field then 1 else 0) + Count(fields[1..], field)
  }

  function Repeat(message: string, n: nat): seq<string> {
    if n == 0 then [] else [message] + Repeat(message, n - 1)
  }

  lemma AppendRepeat(prefix: seq<string>, message: string, n: nat)
    ensures (prefix + [message]) + Repeat(message, n) == prefix + Repeat(message, n + 1)
  {
    assert Repeat(message, n + 1) == [message] + Repeat(message, n);
  }

  /** Required leaves a field that is not blank alone. */
  lemma {:induction false} NoteBlanksSkips(m: Messages, v: Values, fields: seq<string>, field: string)
    requires !IsBlank(v, field)
    ensures Lookup(NoteBlanks(m, v, fields), field) == Lookup(m, field)
    decreases |fields|
  {
    if fields != [] {
      var m' := if IsBlank(v, fields[0]) then Added(m, fields[0], BlankMessage) else m;
      assert Lookup(m', field) == Lookup(m, field);
      NoteBlanksSkips(m', v, fields[1..], field);
    }
  }

  /** Required adds the blank message to a blank field once per time it is
      listed. */
  lemma {:induction false} NoteBlanksRepeats(m: Messages, v: Values, fields: seq<string>, field: string)
    requires IsBlank(v, field)
    ensures Lookup(NoteBlanks(m, v, fields), field) == Lookup(m, field) + Repeat(BlankMessage, Count(fields, field))
    decreases |fields|
  {
    if fields != [] {
      var m' := if IsBlank(v, fields[0]) then Added(m, fields[0], BlankMessage) else m;
      NoteBlanksRepeats(m', v, fields[1..], field);
      var rest := Count(fields[1..], field);
      if fields[0] == field {
        assert Lookup(m', field) == Lookup(m, field) + [BlankMessage];
        AppendRepeat(Lookup(m, field), BlankMessage, rest);
      } else {
        assert Lookup(m', field) == Lookup(m, field);
      }
    }
  }

  /** Required adds the blank message to a listed field whose value trims to
      "", once per time it is listed, and leaves every other field alone. */
  lemma NoteBlanksAt(m: Messages, v: Values, fields: seq<string>, field: string)
    ensures Lookup(NoteBlanks(m, v, fields), field)
         == Lookup(m, field) + (if IsBlank(v, field) then Repeat(BlankMessage, Count(fields, field)) else [])
  {
    if IsBlank(v, field) {
      NoteBlanksRepeats(m, v, fields, field);
    } else {
      NoteBlanksSkips(m, v, fields, field);
      assert Lookup(m, field) + [] == Lookup(m, field);
    }
  }

  /** The keys after Required: the old ones plus exactly the blank listed fields. */
  lemma {:induction false} NoteBlanksKeys(m: Messages, v: Values, fields: seq<string>)
    ensures NoteBlanks(m, v, fields).Keys == m.Keys + (set f | f in fields && IsBlank(v, f))
    decreases |fields|
  {
    if fields != [] {
      var m' := if IsBlank(v, fields[0]) then Added(m, fields[0], BlankMessage) else m;
      NoteBlanksKeys(m', v, fields[1..]);
      assert forall f :: f in fields <==> f == fields[0] || f in fields[1..];
    }
  }

  /** Required records nothing on a fresh map exactly when no listed field
      is blank. */
  lemma NoBlanks(v: Values, fields: seq<string>)
    ensures NoteBlanks(map[], v, fields) == map[] <==> forall i :: 0 <= i < |fields| ==> !IsBlank(v, fields[i])
  {
    NoteBlanksKeys(map[], v, fields);
    if exists i :: 0 <= i < |fields| && IsBlank(v, fields[i]) {
      var i :| 0 <= i < |fields| && IsBlank(v, fields[i]);
      assert fields[i] in NoteBlanks(map[], v, fields).Keys;
    } else {
      assert NoteBlanks(map[], v, fields).Keys == {};
    }
  }

  /** The error map of a single form: errors.Add mutates it in place. */
  class Errors {
    var messages: Messages

    constructor ()
      ensures messages == map[]
    {
      messages := map[];
    }

    method Add(field: string, message: string)
      modifies this
      ensures messages == Added(old(messages), field, message)
    {
      messages := messages[field := Lookup(messages, field) + [message]];
    }

    /** Get reads the map and changes nothing. */
    function Get(field: string): (s: string)
      reads this
      ensures s == First(messages, field)
      ensures Lookup(messages, field) == [] ==> s == ""
    {
      if field in messages && |messages[field]| > 0 then messages[field][0] else ""
    }
  }

  class Form {
    const values: Values
    const errors: Errors

    /** forms.New: the posted values and an empty error map. */
    constructor (data: Values)
      ensures values == data && fresh(errors)
      ensures errors.messages == map[]
      ensures Valid()
    {
      values := data;
      errors := new Errors();
    }

    /** Valid holds exactly when no field has an error recorded. */
    function Valid(): (b: bool)
      reads this, errors
      ensures b <==> (forall f :: f !in errors.messages)
    {
      |errors.messages| == 0
    }

    /** Has: the field's first value in the request's r.Form, `request`, is
        not empty. When r.Form extends the form's values, a field Has rejects
        is one Required would flag, but not the other way round (see
        SpacesAreHadButBlank). */
    function Has(field: string, request: Values): (b: bool)
      ensures b <==> field in request && |request[field]| > 0 && request[field][0] != ""
      ensures request == values ==> (!b ==> IsBlank(values, field))
    {
      FormValue(request, field) != ""
    }

    /** Has over r.Form, the form's values followed by a query's: a field
        it rejects is blank in the form's values. */
    lemma MissingIsBlank(field: string, query: Values)
      ensures !Has(field, Combined(values, query)) ==> IsBlank(values, field)
    {
      CombinedFormValue(values, query, field);
    }

    /** A value of spaces alone: Has holds, yet Required records the blank
        message against the field. */
    lemma SpacesAreHadButBlank(field: string)
      requires values == map[field := ["  "]]
      ensures Has(field, values)
      ensures IsBlank(values, field)
      ensures NoteBlanks(map[], values, [field]) == map[field := [BlankMessage]]
    {
      assert FormValue(values, field) == "  ";
      assert IsSpace(' ');
      assert AllSpace("  ");
      assert [field][1..] == [];
      var none: Messages := map[];
      assert Lookup(none, field) == [];
      assert Lookup(none, field) + [BlankMessage] == [BlankMessage];
      assert Added(none, field, BlankMessage) == map[field := [BlankMessage]];
      assert NoteBlanks(map[], values, [field])
          == NoteBlanks(Added(map[], field, BlankMessage), values, []);
    }

    method Required(fields: seq<string>)
      modifies errors
      ensures errors.messages == NoteBlanks(old(errors.messages), values, fields)
    {
      var i := 0;
      while i < |fields|
        invariant 0 <= i <= |fields|
        invariant NoteBlanks(errors.messages, values, fields[i..])
               == NoteBlanks(old(errors.messages), values, fields)
      {
        assert fields[i..][1..] == fields[i + 1..];
        var value := FormValue(values, fields[i]);
        TrimSpaceEmpty(value);
        if TrimSpace(value) == "" {
          errors.Add(fields[i], BlankMessage);
        }
        i := i + 1;
      }
    }

    /** MinLength reads the field from the request's r.Form, `request`, not
        from the form's own values. */
    method MinLength(field: string, length: int, request: Values) returns (ok: bool)
      modifies errors
      ensures ok <==> ByteLength(FormValue(request, field)) >= length
      ensures ok ==> errors.messages == old(errors.messages)
      ensures !ok ==> errors.messages == Added(old(errors.messages), field, MinLengthMessage(length))
    {
      var x := FormValue(request, field);
      if ByteLength(x) < length {
        errors.Add(field, MinLengthMessage(length));
        return false;
      }
      return true;
    }

    /** IsEmail, with the address check of the validator library as a parameter. */
    method IsEmail(field: string, isEmail: string -> bool)
      modifies errors
      ensures isEmail(FormValue(values, field)) ==> errors.messages == old(errors.messages)
      ensures !isEmail(FormValue(values, field))
              ==> errors.messages == Added(old(errors.messages), field, EmailMessage)
    {
      if !isEmail(FormValue(values, field)) {
        errors.Add(field, EmailMessage);
      }
    }
  }
}
