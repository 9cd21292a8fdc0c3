/** The new-product editor: a record of nine fields, the image guard, and
    the submission, which needs an image and sends prices with 0 for an
    empty price and the two check boxes as 1 or 0. A successful submission
    empties the editor again. */
module AddProduct {
  import opened Js
  import opened Upload

  /** The empty record the editor starts from and returns to. */
  const INITIAL: Obj := map[
    "title" := Str(""), "description" := Str(""), "image" := Null, "category" := Str(""),
    "prepaidPrice" := Str(""), "standardPrice" := Str(""), "hasExtraLabour" := Bool(false),
    "extraLabourCost" := Str(""), "excludeConsumable" := Bool(false)]

  /** `b ? 1 : 0`. */
  function Flag(b: Value): (r: Value)
    ensures r == Num(1.0) <==> Truthy(b)
    ensures r == Num(0.0) <==> !Truthy(b)
  {
    if Truthy(b) then Num(1.0) else Num(0.0)
  }

  /** `v || 0`. */
  function OrZero(v: Value): Value {
    Or(v, Num(0.0))
  }

  /** The category, the prices and the labour and consumables settings, in
      the order both product editors append them. */
  function PriceParts(p: Obj): Payload {
    [Part("category_id", Plain(Get(p, "category"))),
     Part("prepaid_price", Plain(OrZero(Get(p, "prepaidPrice")))),
     Part("standard_price", Plain(OrZero(Get(p, "standardPrice")))),
     Part("has_labour_price", Plain(Flag(Get(p, "hasExtraLabour")))),
     Part("labour_price", Plain(if Truthy(Get(p, "hasExtraLabour")) then OrZero(Get(p, "extraLabourCost")) else Num(0.0))),
     Part("exclude_consumables", Plain(Flag(Get(p, "excludeConsumable"))))]
  }

  /** What `handleSubmit` posts: the title, the price parts and the image. */
  function SubmitPayload(p: Obj): Payload {
    [Part("title", Plain(Get(p, "title")))] + PriceParts(p) + [Part("image", Plain(Get(p, "image")))]
  }

  /** None for the "Please upload an image!" refusal. */
  function Submit(p: Obj): Option<Payload> {
    if !Truthy(Get(p, "image")) then None else Some(SubmitPayload(p))
  }

  /** `handleSubmit`'s guard and its eight appends. */
  method BuildSubmit(p: Obj) returns (r: Option<Payload>)
    ensures r == Submit(p)
  {
    if !Truthy(Get(p, "image")) {
      return None;
    }
    var payload := [Part("title", Plain(Get(p, "title")))];
    var prices := AppendPrices(p);
    payload := payload + prices;
    payload := payload + [Part("image", Plain(Get(p, "image")))];
    return Some(payload);
  }

  /** The six appends both product editors share. */
  method AppendPrices(p: Obj) returns (r: Payload)
    ensures r == PriceParts(p)
  {
    r := [];
    r := r + [Part("category_id", Plain(Get(p, "category")))];
    r := r + [Part("prepaid_price", Plain(OrZero(Get(p, "prepaidPrice"))))];
    r := r + [Part("standard_price", Plain(OrZero(Get(p, "standardPrice"))))];
    r := r + [Part("has_labour_price", Plain(Flag(Get(p, "hasExtraLabour"))))];
    var labour := if Truthy(Get(p, "hasExtraLabour")) then OrZero(Get(p, "extraLabourCost")) else Num(0.0);
    r := r + [Part("labour_price", Plain(labour))];
    r := r + [Part("exclude_consumables", Plain(Flag(Get(p, "excludeConsumable"))))];
  }

  /** How the server reads the category and the prices: an empty or
      missing price is 0. */
  lemma PricesRead(p: Obj)
    ensures PartFor(PriceParts(p), "category_id") == Some(Plain(Get(p, "category")))
    ensures PartFor(PriceParts(p), "prepaid_price") == Some(Plain(if Truthy(Get(p, "prepaidPrice")) then Get(p, "prepaidPrice") else Num(0.0)))
    ensures PartFor(PriceParts(p), "standard_price") == Some(Plain(if Truthy(Get(p, "standardPrice")) then Get(p, "standardPrice") else Num(0.0)))
  {
    ReadAt(p, 0);
    ReadAt(p, 1);
    ReadAt(p, 2);
  }

  /** How the server reads the check boxes: each is 1 exactly when ticked,
      and the labour price is the given cost (0 when empty) only when the
      labour box is ticked. */
  lemma FlagsRead(p: Obj)
    ensures PartFor(PriceParts(p), "has_labour_price") == Some(Plain(if Truthy(Get(p, "hasExtraLabour")) then Num(1.0) else Num(0.0)))
    ensures PartFor(PriceParts(p), "labour_price") ==
            Some(Plain(if !Truthy(Get(p, "hasExtraLabour")) then Num(0.0)
                       else if Truthy(Get(p, "extraLabourCost")) then Get(p, "extraLabourCost") else Num(0.0)))
    ensures PartFor(PriceParts(p), "exclude_consumables") == Some(Plain(if Truthy(Get(p, "excludeConsumable")) then Num(1.0) else Num(0.0)))
  {
    ReadAt(p, 3);
    ReadAt(p, 4);
    ReadAt(p, 5);
  }

  /** The price part at `i` is the one read under its key: the six keys are
      distinct. */
  lemma ReadAt(p: Obj, i: nat)
    requires i < 6
    ensures PartFor(PriceParts(p), PriceParts(p)[i].key) == Some(PriceParts(p)[i].value)
  {
    var q := PriceParts(p);
    assert forall j :: 0 <= j < i ==> q[j].key != q[i].key;
    PartForAt(q, i);
  }

  /** A submission is refused exactly when no image is set; otherwise the
      title is read first, the image last, and every other key as the price
      parts give it. */
  lemma SubmitMeaning(p: Obj)
    ensures Submit(p).None? <==> !Truthy(Get(p, "image"))
    ensures Submit(p).Some? ==>
              PartFor(Submit(p).value, "title") == Some(Plain(Get(p, "title"))) &&
              PartFor(Submit(p).value, "image") == Some(Plain(Get(p, "image"))) &&
              forall k :: k != "title" && k != "image" ==> PartFor(Submit(p).value, k) == PartFor(PriceParts(p), k)
  {
    if Submit(p).Some? {
      var image := [Part("image", Plain(Get(p, "image")))];
      PartForSkip([Part("title", Plain(Get(p, "title")))] + PriceParts(p), image, "image");
      forall k | k != "title" && k != "image"
        ensures PartFor(SubmitPayload(p), k) == PartFor(PriceParts(p), k)
      {
        ReadPastTitle(p, k);
      }
    }
  }

  /** Under any key but the title's and the image's, the submission reads as
      the price parts. */
  lemma ReadPastTitle(p: Obj, k: string)
    requires k != "title" && k != "image"
    ensures PartFor(SubmitPayload(p), k) == PartFor(PriceParts(p), k)
  {
    var head := [Part("title", Plain(Get(p, "title")))];
    var image := [Part("image", Plain(Get(p, "image")))];
    assert SubmitPayload(p) == head + (PriceParts(p) + image);
    PartForSkip(head, PriceParts(p) + image, k);
    if PartFor(PriceParts(p), k).Some? {
      PartForPrefix(PriceParts(p), image, k);
    } else {
      assert PartFor(PriceParts(p) + image, k).None?;
    }
  }

  /** The editor keeps a description field, but the submission carries
      none. */
  lemma NoDescriptionSent(p: Obj)
    ensures PartFor(SubmitPayload(p), "description") == None
  {
    var q := SubmitPayload(p);
    assert forall i :: 0 <= i < |q| ==> q[i].key != "description";
  }

  /** `resetForm`: the empty record and no preview. */
  function ResetForm(ed: Editor): Editor {
    Editor(INITIAL, Null)
  }

  /** The editor after a submission: emptied when the product was created,
      unchanged when it was refused or the request failed. */
  function AfterSubmit(ed: Editor, created: bool): Editor {
    if Submit(ed.record).Some? && created then ResetForm(ed) else ed
  }

  /** Cancel and a successful save both return to the starting editor, from
      which nothing can be submitted until an image is chosen. */
  lemma ResetRestores(ed: Editor, created: bool)
    ensures ResetForm(ed) == Editor(INITIAL, Null) && ResetForm(ResetForm(ed)) == ResetForm(ed)
    ensures Submit(ed.record).Some? && created ==> AfterSubmit(ed, true) == Editor(INITIAL, Null)
    ensures Submit(ed.record).None? ==> AfterSubmit(ed, created) == ed
    ensures Submit(ResetForm(ed).record).None?
  {
  }

  /** After an accepted upload the form can be submitted, with the chosen
      file as its image part. */
  lemma UploadEnablesSubmit(ed: Editor, chosen: Option<File>, preview: Value)
    requires CheckUpload(chosen).Accepted?
    ensures var p := HandleUpload(ed, "image", chosen, preview).record;
            Submit(p).Some? && PartFor(Submit(p).value, "image") == Some(Plain(FileRef(chosen.value)))
  {
    var p := HandleUpload(ed, "image", chosen, preview).record;
    SubmitMeaning(p);
  }
}
