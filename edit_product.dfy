/** The product editor for an existing product: the record decoded from the
    server's product, the image guard and its removal, and the submission,
    which encodes the record the way the new-product editor does, adds the
    description, and sends an image only when a new one was chosen. */
module EditProduct {
  import opened Js
  import opened Upload
  import AddProduct

  /** The editor's record for the server's product `data`. */
  function Decode(data: Value): Obj {
    map[
      "title" := Prop(data, "title"),
      "description" := Prop(data, "description"),
      "image" := Null,
      "category" := Prop(data, "category_id"),
      "prepaidPrice" := Prop(data, "prepaid_price"),
      "standardPrice" := Prop(data, "standard_price"),
      "hasExtraLabour" := Bool(Truthy(Prop(data, "has_labour_price"))),
      "extraLabourCost" := Prop(data, "labour_price"),
      "excludeConsumable" := Bool(Truthy(Prop(data, "exclude_consumables")))]
  }

  /** The editor once the product has arrived: the decoded record and the
      stored image as preview. Reading a field of `null` or `undefined`
      throws, and the handler then keeps the editor as it was. */
  function Loaded(ed: Editor, data: Value): Editor {
    if data.Null? || data.Undefined? then ed else Editor(Decode(data), Prop(data, "image_url"))
  }

  /** The image part, only for a newly chosen image. */
  function ImagePart(p: Obj): Payload {
    if Truthy(Get(p, "image")) then [Part("image", Plain(Get(p, "image")))] else []
  }

  function HeadParts(p: Obj): Payload {
    [Part("title", Plain(Get(p, "title"))),
     Part("description", Plain(Or(Get(p, "description"), Str(""))))]
  }

  /** What `handleSubmit` posts. */
  function EditPayload(p: Obj): Payload {
    HeadParts(p) + AddProduct.PriceParts(p) + ImagePart(p)
  }

  /** `handleSubmit`'s appends. */
  method BuildEditPayload(p: Obj) returns (r: Payload)
    ensures r == EditPayload(p)
  {
    r := [Part("title", Plain(Get(p, "title")))];
    r := r + [Part("description", Plain(Or(Get(p, "description"), Str(""))))];
    var prices := AddProduct.AppendPrices(p);
    r := r + prices;
    if Truthy(Get(p, "image")) {
      r := r + [Part("image", Plain(Get(p, "image")))];
    }
  }

  /** Under a key of the shared price parts, the submission reads as those
      parts. */
  lemma ReadPastHead(p: Obj, k: string)
    requires k != "title" && k != "description" && k != "image"
    ensures PartFor(EditPayload(p), k) == PartFor(AddProduct.PriceParts(p), k)
  {
    assert EditPayload(p) == HeadParts(p) + (AddProduct.PriceParts(p) + ImagePart(p));
    PartForSkip(HeadParts(p), AddProduct.PriceParts(p) + ImagePart(p), k);
    if PartFor(AddProduct.PriceParts(p), k).Some? {
      PartForPrefix(AddProduct.PriceParts(p), ImagePart(p), k);
    } else {
      assert PartFor(AddProduct.PriceParts(p) + ImagePart(p), k).None?;
    }
  }

  /** The description is sent as "" when empty, and the image is sent
      exactly when a new file was chosen. */
  lemma EditPayloadMeaning(p: Obj)
    ensures PartFor(EditPayload(p), "title") == Some(Plain(Get(p, "title")))
    ensures PartFor(EditPayload(p), "description") ==
            Some(Plain(if Truthy(Get(p, "description")) then Get(p, "description") else Str("")))
    ensures PartFor(EditPayload(p), "image").Some? <==> Truthy(Get(p, "image"))
    ensures Truthy(Get(p, "image")) ==> PartFor(EditPayload(p), "image") == Some(Plain(Get(p, "image")))
  {
    var q := EditPayload(p);
    assert q == HeadParts(p) + AddProduct.PriceParts(p) + ImagePart(p);
    assert q[1].key == "description";
    PartForAt(q, 1);
    var front := HeadParts(p) + AddProduct.PriceParts(p);
    assert forall j :: 0 <= j < |front| ==> front[j].key != "image";
    PartForSkip(front, ImagePart(p), "image");
  }

  /** The decoded fields the submission reads. */
  lemma DecodedFields(data: Value)
    ensures var p := Decode(data);
            Get(p, "hasExtraLabour") == Bool(Truthy(Prop(data, "has_labour_price"))) &&
            Get(p, "excludeConsumable") == Bool(Truthy(Prop(data, "exclude_consumables"))) &&
            Get(p, "extraLabourCost") == Prop(data, "labour_price") &&
            Get(p, "category") == Prop(data, "category_id") &&
            Get(p, "title") == Prop(data, "title") &&
            Get(p, "image") == Null
  {
  }

  /** Decoding then submitting without edits sends each check box as 1
      exactly when the stored flag is truthy, and the labour price only
      under a truthy labour flag. */
  lemma DecodeEncodeFlags(data: Value)
    ensures var q := EditPayload(Decode(data));
            PartFor(q, "has_labour_price") == Some(Plain(AddProduct.Flag(Prop(data, "has_labour_price")))) &&
            PartFor(q, "exclude_consumables") == Some(Plain(AddProduct.Flag(Prop(data, "exclude_consumables")))) &&
            PartFor(q, "labour_price") ==
              Some(Plain(if Truthy(Prop(data, "has_labour_price")) then AddProduct.OrZero(Prop(data, "labour_price")) else Num(0.0)))
  {
    var p := Decode(data);
    DecodedFields(data);
    AddProduct.FlagsRead(p);
    ReadPastHead(p, "has_labour_price");
    ReadPastHead(p, "exclude_consumables");
    ReadPastHead(p, "labour_price");
  }

  /** Decoding then submitting without edits sends the stored title and
      category and no image. */
  lemma DecodeEncodeRest(data: Value)
    ensures var q := EditPayload(Decode(data));
            PartFor(q, "category_id") == Some(Plain(Prop(data, "category_id"))) &&
            PartFor(q, "title") == Some(Plain(Prop(data, "title"))) &&
            PartFor(q, "image") == None
  {
    var p := Decode(data);
    DecodedFields(data);
    AddProduct.PricesRead(p);
    ReadPastHead(p, "category_id");
    EditPayloadMeaning(p);
  }

  /** After the image is removed the submission keeps the stored image (it
      sends none); after an accepted upload it sends the chosen file. */
  lemma ImageEdits(ed: Editor, chosen: Option<File>, preview: Value)
    ensures PartFor(EditPayload(RemoveImage(ed, "image").record), "image") == None
    ensures CheckUpload(chosen).Accepted? ==>
              PartFor(EditPayload(HandleUpload(ed, "image", chosen, preview).record), "image") == Some(Plain(FileRef(chosen.value)))
  {
    EditPayloadMeaning(RemoveImage(ed, "image").record);
    EditPayloadMeaning(HandleUpload(ed, "image", chosen, preview).record);
  }

  /** A product that arrived is shown with no new image chosen and with its
      stored image as preview; a failed load keeps the editor. */
  lemma LoadedMeaning(ed: Editor, data: Value)
    ensures !(data.Null? || data.Undefined?) ==>
              Get(Loaded(ed, data).record, "image") == Null && Loaded(ed, data).preview == Prop(data, "image_url") &&
              Get(Loaded(ed, data).record, "hasExtraLabour") == Bool(Truthy(Prop(data, "has_labour_price"))) &&
              Get(Loaded(ed, data).record, "excludeConsumable") == Bool(Truthy(Prop(data, "exclude_consumables"))) &&
              Get(Loaded(ed, data).record, "category") == Prop(data, "category_id")
    ensures data.Null? || data.Undefined? ==> Loaded(ed, data) == ed
  {
  }
}
