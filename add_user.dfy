/** The new-user editor: the four required fields, the image guard and its
    removal, and a submission that sends only the fields that are filled in
    and the image when one is set. */
module AddUser {
  import opened Js
  import opened Seqs
  import opened FormState
  import opened Upload
  import opened UserFields

  /** The image part, when an image is set. */
  function ImagePart(user: Obj): Payload {
    if Truthy(Get(user, "image")) then [Part("image", Plain(Get(user, "image")))] else []
  }

  /** What `handleSubmit` posts once the check passes. */
  function SubmitPayload(user: Obj): Payload {
    FilledParts(user, FIELDS) + ImagePart(user)
  }

  /** `handleSubmit`: the required-field check, then the conditional appends. */
  method HandleSubmit(user: Obj) returns (check: Outcome, payload: Option<Payload>)
    ensures check == Required(user, FIELDS)
    ensures payload == if check == Pass then Some(SubmitPayload(user)) else None
  {
    check := CheckRequired(user, FIELDS);
    if check != Pass {
      return check, None;
    }
    var parts := AppendFilled(user, FIELDS);
    if Truthy(Get(user, "image")) {
      parts := parts + [Part("image", Plain(Get(user, "image")))];
    } else {
      assert parts + [] == parts;
    }
    return check, Some(parts);
  }

  /** A field is sent, with its value, exactly when it is filled in, and the
      image exactly when one is set. */
  lemma SubmitPayloadRead(user: Obj, k: string)
    requires k in FIELDS
    ensures PartFor(SubmitPayload(user), k) == if Truthy(Get(user, k)) then Some(Plain(Get(user, k))) else None
    ensures PartFor(SubmitPayload(user), "image") == if Truthy(Get(user, "image")) then Some(Plain(Get(user, "image"))) else None
  {
    FilledPartsRead(user, FIELDS, k);
    if PartFor(FilledParts(user, FIELDS), k).Some? {
      PartForPrefix(FilledParts(user, FIELDS), ImagePart(user), k);
    } else {
      assert PartFor(SubmitPayload(user), k).None?;
    }
    ReadAfterFields(user, FIELDS, ImagePart(user), "image");
  }

  /** Once the check has passed every field is filled in, so the filter on
      filled-in fields drops nothing: all four are sent. */
  lemma PassedSendsAll(user: Obj)
    requires Required(user, FIELDS) == Pass
    ensures FilledParts(user, FIELDS) == AllParts(user, FIELDS)
  {
    RequiredMeaning(user, FIELDS, 0);
    FilterKeepsAll(FIELDS, IsFilled(user));
  }

  /** After the image is removed nothing is sent for it; after an accepted
      upload the chosen file is. */
  lemma ImageEdits(ed: Editor, chosen: Option<File>, preview: Value)
    ensures PartFor(SubmitPayload(RemoveImage(ed, "image").record), "image") == None
    ensures CheckUpload(chosen).Accepted? ==>
              PartFor(SubmitPayload(HandleUpload(ed, "image", chosen, preview).record), "image") == Some(Plain(FileRef(chosen.value)))
  {
    SubmitPayloadRead(RemoveImage(ed, "image").record, "name");
    SubmitPayloadRead(HandleUpload(ed, "image", chosen, preview).record, "name");
  }
}
