/** The own-profile editor. A super admin may edit all four user fields;
    anybody else only the name, and the other inputs are disabled. Only the
    editable fields are checked and sent, with the image when a new file was
    chosen. */
module Profile {
  import opened Js
  import opened Seqs
  import opened FormState
  import opened UserFields

  /** `user?.role === "super admin"`, for the signed-in user of the store. */
  predicate IsSuperAdmin(signedIn: Value) {
    Prop(signedIn, "role") == Str("super admin")
  }

  /** `["name"].includes(name)`. */
  function OnlyName(name: string): bool {
    name == "name"
  }

  /** `editableFields`. */
  function Editable(signedIn: Value): seq<string> {
    if IsSuperAdmin(signedIn) then FIELDS else Filter(FIELDS, OnlyName)
  }

  /** `disabled={!isSuperAdmin && f.name !== "name"}`. */
  predicate Disabled(signedIn: Value, name: string) {
    !IsSuperAdmin(signedIn) && name != "name"
  }

  /** Only the name survives the non-admin filter. */
  lemma {:induction false} OnlyNameFilter()
    ensures Filter(FIELDS, OnlyName) == ["name"]
  {
    var f := OnlyName;
    var s1: seq<string> := ["name"];
    var s2 := s1 + ["email"];
    var s3 := s2 + ["phone"];
    assert FIELDS == s3 + ["role"];
    FilterAppend([], f, "name");
    assert [] + ["name"] == s1;
    assert Filter(s1, f) == ["name"];
    FilterAppend(s1, f, "email");
    assert Filter(s2, f) == ["name"];
    FilterAppend(s2, f, "phone");
    assert Filter(s3, f) == ["name"];
    FilterAppend(s3, f, "role");
  }

  /** All four fields for a super admin, the name alone otherwise; and an
      input is disabled exactly when its field is not editable. */
  lemma EditableFields(signedIn: Value, name: string)
    ensures Editable(signedIn) == if IsSuperAdmin(signedIn) then FIELDS else ["name"]
    ensures name in FIELDS ==> (name in Editable(signedIn) <==> !Disabled(signedIn, name))
  {
    OnlyNameFilter();
  }

  /** The image part, only for a newly chosen file. */
  function ImagePart(formUser: Obj): Payload {
    if IsFile(Get(formUser, "image")) then [Part("image", Plain(Get(formUser, "image")))] else []
  }

  function SubmitPayload(signedIn: Value, formUser: Obj): Payload {
    AllParts(formUser, Editable(signedIn)) + ImagePart(formUser)
  }

  /** `handleSubmit`: the check of the editable fields, then their appends. */
  method HandleSubmit(signedIn: Value, formUser: Obj) returns (check: Outcome, payload: Option<Payload>)
    ensures check == Required(formUser, Editable(signedIn))
    ensures payload == if check == Pass then Some(SubmitPayload(signedIn, formUser)) else None
  {
    var editable := if IsSuperAdmin(signedIn) then FIELDS else Filter(FIELDS, OnlyName);
    check := CheckRequired(formUser, editable);
    if check != Pass {
      return check, None;
    }
    var parts := AppendAll(formUser, editable);
    if IsFile(Get(formUser, "image")) {
      parts := parts + [Part("image", Plain(Get(formUser, "image")))];
    } else {
      assert parts + [] == parts;
    }
    return check, Some(parts);
  }

  /** A field is sent exactly when its input is enabled, with its value;
      the image only when a new file was chosen. */
  lemma SubmitMeaning(signedIn: Value, formUser: Obj, k: string)
    requires k in FIELDS
    ensures PartFor(SubmitPayload(signedIn, formUser), k) ==
            if !Disabled(signedIn, k) then Some(Plain(Get(formUser, k))) else None
    ensures PartFor(SubmitPayload(signedIn, formUser), "image") ==
            if IsFile(Get(formUser, "image")) then Some(Plain(Get(formUser, "image"))) else None
  {
    FieldSentFor(signedIn, formUser, k);
    ImageSentFor(signedIn, formUser);
  }

  lemma FieldSentFor(signedIn: Value, formUser: Obj, k: string)
    requires k in FIELDS
    ensures PartFor(SubmitPayload(signedIn, formUser), k) ==
            if !Disabled(signedIn, k) then Some(Plain(Get(formUser, k))) else None
  {
    EditableFields(signedIn, k);
    var e := Editable(signedIn);
    if k in e {
      AllPartsRead(formUser, e, k);
      PartForPrefix(AllParts(formUser, e), ImagePart(formUser), k);
    } else {
      NotImage(k);
      ReadAfterFields(formUser, e, ImagePart(formUser), k);
    }
  }

  /** No user field is read under the image's key. */
  lemma NotImage(k: string)
    requires k in FIELDS
    ensures k != "image"
  {
  }

  lemma ImageSentFor(signedIn: Value, formUser: Obj)
    ensures PartFor(SubmitPayload(signedIn, formUser), "image") ==
            if IsFile(Get(formUser, "image")) then Some(Plain(Get(formUser, "image"))) else None
  {
    EditableFields(signedIn, "image");
    var e := Editable(signedIn);
    assert "image" !in e;
    ReadAfterFields(formUser, e, ImagePart(formUser), "image");
  }

  /** For anybody but a super admin only an empty name blocks the
      submission; a super admin must fill in all four fields. */
  lemma RequiredForRole(signedIn: Value, formUser: Obj)
    ensures !IsSuperAdmin(signedIn) ==> (Required(formUser, Editable(signedIn)) == Pass <==> Truthy(Get(formUser, "name")))
    ensures IsSuperAdmin(signedIn) ==> Required(formUser, Editable(signedIn)) == Required(formUser, FIELDS)
  {
    EditableFields(signedIn, "name");
    RequiredMeaning(formUser, Editable(signedIn), 0);
  }
}
