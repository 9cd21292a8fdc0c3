/** The user editor: the four required fields, the image guard and its
    removal, and a submission that always sends all four fields and sends
    the image only when a new file was chosen. */
module EditUser {
  import opened Js
  import opened FormState
  import opened Upload
  import opened UserFields

  /** The image part, only for a newly chosen file. */
  function ImagePart(user: Obj): Payload {
    if IsFile(Get(user, "image")) then [Part("image", Plain(Get(user, "image")))] else []
  }

  /** What `handleSubmit` posts once the check passes. */
  function SubmitPayload(user: Obj): Payload {
    AllParts(user, FIELDS) + ImagePart(user)
  }

  /** `handleSubmit`: the required-field check, then the appends. */
  method HandleSubmit(user: Obj) returns (check: Outcome, payload: Option<Payload>)
    ensures check == Required(user, FIELDS)
    ensures payload == if check == Pass then Some(SubmitPayload(user)) else None
  {
    check := CheckRequired(user, FIELDS);
    if check != Pass {
      return check, None;
    }
    var parts := AppendAll(user, FIELDS);
    if IsFile(Get(user, "image")) {
      parts := parts + [Part("image", Plain(Get(user, "image")))];
    } else {
      assert parts + [] == parts;
    }
    return check, Some(parts);
  }

  /** Every field is sent with its value; the image only when it is a newly
      chosen file, so the stored image's path is never sent back. */
  lemma SubmitPayloadRead(user: Obj, k: string)
    requires k in FIELDS
    ensures PartFor(SubmitPayload(user), k) == Some(Plain(Get(user, k)))
    ensures PartFor(SubmitPayload(user), "image") == if IsFile(Get(user, "image")) then Some(Plain(Get(user, "image"))) else None
  {
    FieldSent(user, k);
    ImageSent(user);
  }

  lemma FieldSent(user: Obj, k: string)
    requires k in FIELDS
    ensures PartFor(SubmitPayload(user), k) == Some(Plain(Get(user, k)))
  {
    AllPartsRead(user, FIELDS, k);
    PartForPrefix(AllParts(user, FIELDS), ImagePart(user), k);
  }

  lemma ImageSent(user: Obj)
    ensures PartFor(SubmitPayload(user), "image") == if IsFile(Get(user, "image")) then Some(Plain(Get(user, "image"))) else None
  {
    ReadAfterFields(user, FIELDS, ImagePart(user), "image");
  }

  /** After the image is removed nothing is sent for it; after an accepted
      upload the chosen file is. */
  lemma ImageEdits(ed: Editor, chosen: Option<File>, preview: Value)
    ensures PartFor(SubmitPayload(RemoveImage(ed, "image").record), "image") == None
    ensures CheckUpload(chosen).Accepted? ==>
              PartFor(SubmitPayload(HandleUpload(ed, "image", chosen, preview).record), "image") == Some(Plain(FileRef(chosen.value)))
  {
    SubmitPayloadRead(RemoveImage(ed, "image").record, "name");
    SubmitPayloadRead(HandleUpload(ed, "image", chosen, preview).record, "name");
  }
}
