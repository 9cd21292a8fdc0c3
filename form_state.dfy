/** What the dashboard's editors share: a state record keyed by field name,
    the `for … of` check that stops at the first empty required field, and
    the generic input handler of the form wizard. */
module FormState {
  import opened Js

  /** A validator's verdict: pass, or the message of the toast it raises. */
  datatype Outcome = Pass | Fail(message: string)

  /** The position of the first field of `fields` whose value in `form` is
      falsy, None when every one is filled in. */
  function FirstEmpty(form: Obj, fields: seq<string>): (r: Option<nat>)
    ensures r.Some? ==> r.value < |fields| && !Truthy(Get(form, fields[r.value])) &&
                        forall j :: 0 <= j < r.value ==> Truthy(Get(form, fields[j]))
    ensures r.None? <==> forall j :: 0 <= j < |fields| ==> Truthy(Get(form, fields[j]))
  {
    if fields == [] then None
    else if !Truthy(Get(form, fields[0])) then Some(0)
    else
      var r := FirstEmpty(form, fields[1..]);
      if r.None? then None else Some(r.value + 1)
  }

  /** `for (const field of fields) if (!form[field]) return …`: the loop
      with its early return. */
  method FindFirstEmpty(form: Obj, fields: seq<string>) returns (r: Option<nat>)
    ensures r == FirstEmpty(form, fields)
  {
    var i := 0;
    while i < |fields|
      invariant 0 <= i <= |fields|
      invariant forall j :: 0 <= j < i ==> Truthy(Get(form, fields[j]))
    {
      if !Truthy(Get(form, fields[i])) {
        FirstEmptyIsUnique(form, fields, i);
        return Some(i);
      }
      i := i + 1;
    }
    return None;
  }

  /** An index whose field is empty and whose predecessors are filled in is
      the one `FirstEmpty` reports. */
  lemma {:induction false} FirstEmptyIsUnique(form: Obj, fields: seq<string>, i: nat)
    requires i < |fields| && !Truthy(Get(form, fields[i]))
    requires forall j :: 0 <= j < i ==> Truthy(Get(form, fields[j]))
    ensures FirstEmpty(form, fields) == Some(i)
  {
    if i > 0 {
      assert Truthy(Get(form, fields[0]));
      forall j | 0 <= j < i - 1 ensures Truthy(Get(form, fields[1..][j])) {
        assert fields[1..][j] == fields[j + 1];
      }
      FirstEmptyIsUnique(form, fields[1..], i - 1);
    }
  }

  /** Checking a longer list that starts with a shorter one fails no earlier:
      if the shorter list passes, the first failure of the longer one lies
      past it. */
  lemma FirstEmptyPrefix(form: Obj, short: seq<string>, rest: seq<string>)
    requires FirstEmpty(form, short).None?
    ensures FirstEmpty(form, short + rest).None? <==> FirstEmpty(form, rest).None?
  {
    var all := short + rest;
    if FirstEmpty(form, rest).None? {
      forall j | 0 <= j < |all| ensures Truthy(Get(form, all[j])) {
        if j >= |short| { assert all[j] == rest[j - |short|]; }
      }
    } else {
      var k := FirstEmpty(form, rest).value;
      assert all[|short| + k] == rest[k];
    }
  }

  /** `handleInputChange`: a file input stores its first file, or null when
      none was chosen; any other input stores its value under its name. */
  function InputChange(form: Obj, name: string, isFile: bool, value: Value, files: seq<File>): (r: Obj)
    ensures isFile ==> Get(r, name) == (if files != [] then FileRef(files[0]) else Null)
    ensures !isFile ==> Get(r, name) == value
    ensures forall k :: k != name ==> Get(r, k) == Get(form, k)
  {
    if isFile then Set(form, name, if files != [] then FileRef(files[0]) else Null)
    else Set(form, name, value)
  }

  /** Replaying an input with the value already stored changes nothing, and a
      later input to the same field overrides an earlier one. */
  lemma InputChangeOverrides(form: Obj, name: string, v1: Value, v2: Value)
    ensures InputChange(InputChange(form, name, false, v1, []), name, false, v2, []) == InputChange(form, name, false, v2, [])
    ensures name in form ==> InputChange(form, name, false, form[name], []) == form
  {
  }

  // ---------------------------------------------------------------------------
  // The opening of the wizards' payloads

  /** The event fields, in the order they are loaded and sent. */
  const EVENT_FIELDS: seq<string> := ["showName", "facility", "room", "loadInDate", "loadInTime",
                                      "startDate", "startTime", "finishDate", "finishTime"]

  /** The user and the form's contact details, sent first by both wizards. */
  function HeaderParts(form: Obj, userId: Value): Payload {
    [Part("user_id", Plain(userId)),
     Part("form_title", Plain(Get(form, "formTitle"))),
     Part("contact_name", Plain(Get(form, "contactName"))),
     Part("contact_email", Plain(Get(form, "contactEmail"))),
     Part("contact_phone", Plain(Get(form, "contactPhone"))),
     Part("company_name", Plain(Get(form, "companyName")))]
  }

  /** The logo goes only when it is a newly chosen file. */
  function LogoParts(form: Obj): Payload {
    if IsFile(Get(form, "companyLogo")) then [Part("company_logo", Plain(Get(form, "companyLogo")))] else []
  }

  /** The six appends that open the payload. */
  method OpenPayload(form: Obj, userId: Value) returns (r: Payload)
    ensures r == HeaderParts(form, userId)
  {
    r := [];
    r := r + [Part("user_id", Plain(userId))];
    r := r + [Part("form_title", Plain(Get(form, "formTitle")))];
    r := r + [Part("contact_name", Plain(Get(form, "contactName")))];
    r := r + [Part("contact_email", Plain(Get(form, "contactEmail")))];
    r := r + [Part("contact_phone", Plain(Get(form, "contactPhone")))];
    r := r + [Part("company_name", Plain(Get(form, "companyName")))];
  }
}
