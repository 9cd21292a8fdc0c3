/** The image guard that every editor of the dashboard repeats (products,
    users, the profile and the company settings): a chosen file is taken
    only when its MIME type mentions "image" and it is at most 5 MiB, and it
    is then stored in one field of the record being edited and shown as a
    preview. Removing the image clears both. */
module Upload {
  import opened Js

  /** `5 * 1024 * 1024` bytes. */
  const MAX_BYTES: int := 5 * 1024 * 1024

  /** What the guard decides about the chosen file. */
  datatype Verdict = NoFile | NotImage | TooLarge | Accepted(file: File)

  /** `if (!file) return; if (!file.type.match("image.*")) …; if (file.size > 5 MiB) …`:
      the type is tested before the size. */
  function CheckUpload(chosen: Option<File>): (r: Verdict)
    ensures r.Accepted? <==> chosen.Some? && Includes(chosen.value.mime, "image") && chosen.value.size <= MAX_BYTES
    ensures r.Accepted? ==> r.file == chosen.value
    ensures r == NoFile <==> chosen.None?
  {
    if chosen.None? then NoFile
    else if !Includes(chosen.value.mime, "image") then NotImage
    else if chosen.value.size > MAX_BYTES then TooLarge
    else Accepted(chosen.value)
  }

  /** The state an upload touches: the record under edit and its preview
      (`null` when nothing is shown). */
  datatype Editor = Editor(record: Obj, preview: Value)

  /** `handleImageUpload`: an accepted file goes into `field` and its data
      URL (`preview`, produced by the browser) becomes the preview; any
      other verdict returns before touching the state. */
  function HandleUpload(ed: Editor, field: string, chosen: Option<File>, preview: Value): Editor {
    var v := CheckUpload(chosen);
    if v.Accepted? then Editor(Set(ed.record, field, FileRef(v.file)), preview) else ed
  }

  /** `removeImage` / `removeLogo`: the field and the preview become `null`. */
  function RemoveImage(ed: Editor, field: string): Editor {
    Editor(Set(ed.record, field, Null), Null)
  }

  /** A rejected upload changes nothing; an accepted one stores exactly the
      chosen file, shows its preview, and leaves every other field alone. */
  lemma UploadEffect(ed: Editor, field: string, chosen: Option<File>, preview: Value, other: string)
    requires other != field
    ensures !CheckUpload(chosen).Accepted? ==> HandleUpload(ed, field, chosen, preview) == ed
    ensures CheckUpload(chosen).Accepted? ==>
              Get(HandleUpload(ed, field, chosen, preview).record, field) == FileRef(chosen.value) &&
              HandleUpload(ed, field, chosen, preview).preview == preview
    ensures Get(HandleUpload(ed, field, chosen, preview).record, other) == Get(ed.record, other)
  {
  }

  /** The limit is inclusive, and a file that is not an image is refused
      whatever its size. */
  lemma UploadBoundary(name: string, mime: string, size: int)
    ensures Includes(mime, "image") ==> CheckUpload(Some(File(name, mime, MAX_BYTES))).Accepted?
    ensures CheckUpload(Some(File(name, mime, MAX_BYTES + 1))) != Accepted(File(name, mime, MAX_BYTES + 1))
    ensures !Includes(mime, "image") ==> CheckUpload(Some(File(name, mime, size))) == NotImage
  {
  }

  /** The guard's test is a substring test: "image/png" passes and so does
      a type that only mentions "image" later on, while "application/pdf"
      does not. */
  lemma UploadTypeExamples(size: int)
    requires 0 <= size <= MAX_BYTES
    ensures CheckUpload(Some(File("a.png", "image/png", size))).Accepted?
    ensures CheckUpload(Some(File("a.doc", "x-image", size))).Accepted?
    ensures CheckUpload(Some(File("a.pdf", "application/pdf", size))) == NotImage
  {
    ImageTypes();
    NoImageInPdf();
  }

  /** Both "image/png" and "x-image" contain "image". */
  lemma ImageTypes()
    ensures Includes("image/png", "image") && Includes("x-image", "image")
  {
    var png := "image/png";
    assert png[..5] == "image";
    var x := "x-image";
    assert x[1..][1..] == "image";
    assert StartsWith(x[1..][1..], "image");
  }

  /** "application/pdf" has no "m", so it does not contain "image". */
  lemma NoImageInPdf()
    ensures !Includes("application/pdf", "image")
  {
    var pdf := "application/pdf";
    assert forall i :: 0 <= i < |pdf| ==> pdf[i] != "image"[1];
    MissingCharExcludes(pdf, "image", 1);
  }

  /** After removal no file is stored and no preview is shown, whatever was
      there; removing twice is removing once, a removal undoes an upload,
      and an upload after a removal is the upload alone. */
  lemma RemoveImageClears(ed: Editor, field: string, chosen: Option<File>, preview: Value)
    ensures !IsFile(Get(RemoveImage(ed, field).record, field)) && !Truthy(RemoveImage(ed, field).preview)
    ensures RemoveImage(RemoveImage(ed, field), field) == RemoveImage(ed, field)
    ensures RemoveImage(HandleUpload(ed, field, chosen, preview), field) == RemoveImage(ed, field)
    ensures CheckUpload(chosen).Accepted? ==>
              HandleUpload(RemoveImage(ed, field), field, chosen, preview) == HandleUpload(ed, field, chosen, preview)
  {
    var v := CheckUpload(chosen);
    SetTwice(ed.record, field, Null, Null);
    if v.Accepted? {
      SetTwice(ed.record, field, FileRef(v.file), Null);
      SetTwice(ed.record, field, Null, FileRef(v.file));
    }
  }

  /** Writing a field twice keeps only the second write. */
  lemma SetTwice(o: Obj, k: string, v: Value, w: Value)
    ensures Set(Set(o, k, v), k, w) == Set(o, k, w)
  {
    assert o[k := v][k := w] == o[k := w];
  }
}
