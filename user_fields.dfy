/** The four fields the three user editors (new user, user, own profile)
    share, their required-field check and the parts they post, one per
    field. */
module UserFields {
  import opened Js
  import opened Seqs
  import opened FormState

  const FIELDS: seq<string> := ["name", "email", "phone", "role"]

  /** Each field's label. */
  function LabelOf(name: string): string {
    if name == "name" then "Full Name"
    else if name == "email" then "Email"
    else if name == "phone" then "Phone"
    else if name == "role" then "Role"
    else name
  }

  /** `for (const field of fields) if (field.required && !user[field.name]) …`:
      every field is required, so the first empty one is refused with its
      label. */
  function Required(user: Obj, fields: seq<string>): (r: Outcome) {
    var i := FirstEmpty(user, fields);
    if i.Some? then Fail(LabelOf(fields[i.value]) + " is required!") else Pass
  }

  method CheckRequired(user: Obj, fields: seq<string>) returns (r: Outcome)
    ensures r == Required(user, fields)
  {
    var i := FindFirstEmpty(user, fields);
    if i.Some? {
      return Fail(LabelOf(fields[i.value]) + " is required!");
    }
    return Pass;
  }

  /** The check passes exactly when every field is filled in, and otherwise
      names the first empty field. */
  lemma RequiredMeaning(user: Obj, fields: seq<string>, i: nat)
    ensures Required(user, fields) == Pass <==> forall j :: 0 <= j < |fields| ==> Truthy(Get(user, fields[j]))
    ensures i < |fields| && !Truthy(Get(user, fields[i])) && (forall j :: 0 <= j < i ==> Truthy(Get(user, fields[j]))) ==>
              Required(user, fields) == Fail(LabelOf(fields[i]) + " is required!")
  {
    if i < |fields| && !Truthy(Get(user, fields[i])) && (forall j :: 0 <= j < i ==> Truthy(Get(user, fields[j]))) {
      FirstEmptyIsUnique(user, fields, i);
    }
  }

  /** The labels of the four fields. */
  lemma FieldLabels()
    ensures Map(FIELDS, LabelOf) == ["Full Name", "Email", "Phone", "Role"]
  {
  }

  /** `formData.append(f.name, user[f.name])`. */
  function FieldPart(user: Obj): string -> Part {
    (name: string) => Part(name, Plain(Get(user, name)))
  }

  /** One part per field, in order. */
  function AllParts(user: Obj, fields: seq<string>): Payload {
    Map(fields, FieldPart(user))
  }

  /** `(name) => !!user[name]`. */
  function IsFilled(user: Obj): string -> bool {
    (name: string) => Truthy(Get(user, name))
  }

  /** One part per filled-in field, in order. */
  function FilledParts(user: Obj, fields: seq<string>): Payload {
    Map(Filter(fields, IsFilled(user)), FieldPart(user))
  }

  /** `fields.forEach((f) => formData.append(f.name, user[f.name]))`. */
  method AppendAll(user: Obj, fields: seq<string>) returns (r: Payload)
    ensures r == AllParts(user, fields)
  {
    r := [];
    var i := 0;
    while i < |fields|
      invariant 0 <= i <= |fields|
      invariant r == Map(fields[..i], FieldPart(user))
    {
      assert fields[..i + 1] == fields[..i] + [fields[i]];
      assert fields[..i + 1][..i] == fields[..i];
      r := r + [Part(fields[i], Plain(Get(user, fields[i])))];
      i := i + 1;
    }
    assert fields[..i] == fields;
  }

  /** `fields.forEach((f) => { if (user[f.name]) formData.append(f.name, user[f.name]) })`. */
  method AppendFilled(user: Obj, fields: seq<string>) returns (r: Payload)
    ensures r == FilledParts(user, fields)
  {
    r := [];
    var i := 0;
    while i < |fields|
      invariant 0 <= i <= |fields|
      invariant r == Map(Filter(fields[..i], IsFilled(user)), FieldPart(user))
    {
      assert fields[..i + 1] == fields[..i] + [fields[i]];
      FilterAppend(fields[..i], IsFilled(user), fields[i]);
      var kept := Filter(fields[..i], IsFilled(user));
      if Truthy(Get(user, fields[i])) {
        assert Filter(fields[..i + 1], IsFilled(user)) == kept + [fields[i]];
        assert (kept + [fields[i]])[..|kept|] == kept;
        r := r + [Part(fields[i], Plain(Get(user, fields[i])))];
      }
      i := i + 1;
    }
    assert fields[..i] == fields;
  }

  /** Every part under a key carries that field's value, so a field is read
      back as its value exactly when it is sent. */
  lemma AllPartsRead(user: Obj, fields: seq<string>, k: string)
    ensures PartFor(AllParts(user, fields), k) == if k in fields then Some(Plain(Get(user, k))) else None
  {
    var p := AllParts(user, fields);
    if k in fields {
      var i :| 0 <= i < |fields| && fields[i] == k;
      assert p[i].key == k;
    }
  }

  /** A filled-in field is read back as its value, an empty one not at all. */
  lemma FilledPartsRead(user: Obj, fields: seq<string>, k: string)
    ensures PartFor(FilledParts(user, fields), k) ==
            if k in fields && Truthy(Get(user, k)) then Some(Plain(Get(user, k))) else None
  {
    FilterMembership(fields, IsFilled(user), k);
    AllPartsRead(user, Filter(fields, IsFilled(user)), k);
  }

  /** Parts of a payload built from field parts never use a key outside the
      fields, so what follows them is read unchanged under such a key. */
  lemma ReadAfterFields(user: Obj, fields: seq<string>, rest: Payload, k: string)
    requires k !in fields
    ensures PartFor(AllParts(user, fields) + rest, k) == PartFor(rest, k)
    ensures PartFor(FilledParts(user, fields) + rest, k) == PartFor(rest, k)
  {
    FilterIsSubsequence(fields, IsFilled(user));
    var kept := Filter(fields, IsFilled(user));
    forall j | 0 <= j < |kept| ensures kept[j] != k {
      FilterMembership(fields, IsFilled(user), kept[j]);
    }
    PartForSkip(AllParts(user, fields), rest, k);
    PartForSkip(FilledParts(user, fields), rest, k);
  }
}
