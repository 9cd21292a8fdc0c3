/** The wizard that creates an order form: its validator, which checks every
    contact, logo and event field, and its payload, which sends the event
    information, the product list and the settings as three JSON texts. */
module AddForm {
  import opened Js
  import opened FormState
  import Seqs
  import EditForm

  /** The fields a published form must have, in the order they are checked. */
  const REQUIRED: seq<string> := ["formTitle", "contactName", "contactEmail", "contactPhone", "companyName",
                                  "companyLogo", "showName", "facility", "room", "loadInDate", "loadInTime",
                                  "startDate", "startTime", "finishDate", "finishTime"]

  // ---------------------------------------------------------------------------
  // Validation

  /** `validateForm(status)`: a draft needs a title; anything else needs the
      required fields in order, then a product. The message names the field
      as it is spelled in the state. */
  function Validation(form: Obj, status: string): Outcome {
    if status == "draft" then
      if Truthy(Get(form, "formTitle")) then Pass else Fail("Form title is required for draft")
    else
      var first := FirstEmpty(form, REQUIRED);
      if first.Some? then Fail("Please fill " + REQUIRED[first.value])
      else if |Items(Get(form, "products"))| == 0 then Fail("Please select at least one product")
      else Pass
  }

  /** The validator as written: the field loop with its early return. */
  method ValidateForm(form: Obj, status: string) returns (r: Outcome)
    ensures r == Validation(form, status)
  {
    if status == "draft" {
      if !Truthy(Get(form, "formTitle")) {
        return Fail("Form title is required for draft");
      }
      return Pass;
    }
    var first := FindFirstEmpty(form, REQUIRED);
    if first.Some? {
      return Fail("Please fill " + REQUIRED[first.value]);
    }
    if |Items(Get(form, "products"))| == 0 {
      return Fail("Please select at least one product");
    }
    return Pass;
  }

  /** A draft passes exactly when it has a title. */
  lemma DraftRule(form: Obj)
    ensures Validation(form, "draft") == Pass <==> Truthy(Get(form, "formTitle"))
  {
  }

  /** Publishing passes exactly when all fifteen fields are filled in and a
      product is chosen; no tax is asked for. */
  lemma PublishRule(form: Obj, status: string)
    requires status != "draft"
    ensures Validation(form, status) == Pass <==>
              (forall i :: 0 <= i < |REQUIRED| ==> Truthy(Get(form, REQUIRED[i]))) &&
              |Items(Get(form, "products"))| > 0
  {
  }

  /** Publishing reports the first empty field under its state name. */
  lemma PublishReportsFirstEmpty(form: Obj, status: string, i: nat)
    requires status != "draft" && i < |REQUIRED| && !Truthy(Get(form, REQUIRED[i]))
    requires forall j :: 0 <= j < i ==> Truthy(Get(form, REQUIRED[j]))
    ensures Validation(form, status) == Fail("Please fill " + REQUIRED[i])
  {
    FirstEmptyIsUnique(form, REQUIRED, i);
  }

  /** A form that could be published could also be saved as a draft. */
  lemma PublishImpliesDraft(form: Obj, status: string)
    requires status != "draft" && Validation(form, status) == Pass
    ensures Validation(form, "draft") == Pass
  {
    assert REQUIRED[0] == "formTitle";
  }

  /** The create check is the stricter one: every field it demands includes
      the edit check's ten, so a form it passes, once a tax is selected,
      also passes the edit check. */
  lemma StricterThanEdit(form: Obj, status: string)
    requires status != "draft" && Validation(form, status) == Pass
    ensures EditForm.Validation(form, true, status) == Pass
  {
    PublishRule(form, status);
    forall i | 0 <= i < |EditForm.REQUIRED| ensures Truthy(Get(form, EditForm.REQUIRED[i])) {
      var at := [0, 1, 2, 3, 4, 6, 7, 8, 11, 13][i];
      assert REQUIRED[at] == EditForm.REQUIRED[i];
    }
    EditForm.PublishRule(form, true, status);
  }

  // ---------------------------------------------------------------------------
  // Saving

  /** The entry of one event field in the `event_info` object. */
  function EventEntry(form: Obj): string -> (string, Value) {
    (k: string) => (k, Get(form, k))
  }

  /** The object whose JSON text is sent as `event_info`: the nine event
      fields in order, with the state's values as they are. */
  function EventInfoObject(form: Obj): Value {
    Object(Seqs.Map(EVENT_FIELDS, EventEntry(form)))
  }

  /** The four entries after the contact details and the logo. */
  function JsonParts(form: Obj, status: string): Payload {
    [Part("event_info", JsonOf(EventInfoObject(form))),
     Part("product_select", JsonOf(Get(form, "products"))),
     Part("other_settings", JsonOf(Get(form, "otherSettings"))),
     Part("status", Plain(Str(status)))]
  }

  /** The payload `saveForm(status)` posts. */
  function CreatePayload(form: Obj, userId: Value, status: string): Payload {
    HeaderParts(form, userId) + LogoParts(form) + JsonParts(form, status)
  }

  /** `saveForm`'s successive `append` calls. */
  method BuildCreatePayload(form: Obj, userId: Value, status: string) returns (payload: Payload)
    ensures payload == CreatePayload(form, userId, status)
  {
    payload := OpenPayload(form, userId);
    if IsFile(Get(form, "companyLogo")) {
      payload := payload + [Part("company_logo", Plain(Get(form, "companyLogo")))];
    } else {
      assert payload + [] == payload;
    }
    var ev := Object([("showName", Get(form, "showName")), ("facility", Get(form, "facility")),
                      ("room", Get(form, "room")), ("loadInDate", Get(form, "loadInDate")),
                      ("loadInTime", Get(form, "loadInTime")), ("startDate", Get(form, "startDate")),
                      ("startTime", Get(form, "startTime")), ("finishDate", Get(form, "finishDate")),
                      ("finishTime", Get(form, "finishTime"))]);
    EventInfoListsFields(form);
    payload := payload + [Part("event_info", JsonOf(ev))];
    payload := payload + [Part("product_select", JsonOf(Get(form, "products")))];
    payload := payload + [Part("other_settings", JsonOf(Get(form, "otherSettings")))];
    payload := payload + [Part("status", Plain(Str(status)))];
  }

  /** The `event_info` object, written out field by field. */
  lemma EventInfoListsFields(form: Obj)
    ensures EventInfoObject(form) ==
            Object([("showName", Get(form, "showName")), ("facility", Get(form, "facility")),
                    ("room", Get(form, "room")), ("loadInDate", Get(form, "loadInDate")),
                    ("loadInTime", Get(form, "loadInTime")), ("startDate", Get(form, "startDate")),
                    ("startTime", Get(form, "startTime")), ("finishDate", Get(form, "finishDate")),
                    ("finishTime", Get(form, "finishTime"))])
  {
  }

  /** What the receiver reads: the event information, the products and
      the settings each as one JSON text, and the status. */
  lemma CreatePayloadReads(form: Obj, userId: Value, status: string)
    ensures var p := CreatePayload(form, userId, status);
            PartFor(p, "event_info") == Some(JsonOf(EventInfoObject(form))) &&
            PartFor(p, "product_select") == Some(JsonOf(Get(form, "products"))) &&
            PartFor(p, "other_settings") == Some(JsonOf(Get(form, "otherSettings"))) &&
            PartFor(p, "status") == Some(Plain(Str(status)))
  {
    JsonPartRead(form, userId, status, 0);
    JsonPartRead(form, userId, status, 1);
    JsonPartRead(form, userId, status, 2);
    JsonPartRead(form, userId, status, 3);
  }

  lemma JsonPartRead(form: Obj, userId: Value, status: string, i: nat)
    requires i < 4
    ensures PartFor(CreatePayload(form, userId, status), JsonParts(form, status)[i].key) == Some(JsonParts(form, status)[i].value)
  {
    var tail := JsonParts(form, status);
    var key := tail[i].key;
    OpeningKeysAreNot(form, userId, key);
    PartForSkip(HeaderParts(form, userId) + LogoParts(form), tail, key);
    JsonKeysDistinct(form, status, i);
    PartForAt(tail, i);
  }

  lemma JsonKeysDistinct(form: Obj, status: string, i: nat)
    requires i < 4
    ensures JsonParts(form, status)[i].key in {"event_info", "product_select", "other_settings", "status"}
    ensures forall j :: 0 <= j < i ==> JsonParts(form, status)[j].key != JsonParts(form, status)[i].key
  {
  }

  lemma OpeningKeysAreNot(form: Obj, userId: Value, key: string)
    requires key in {"event_info", "product_select", "other_settings", "status"}
    ensures forall j :: 0 <= j < |HeaderParts(form, userId) + LogoParts(form)| ==>
              (HeaderParts(form, userId) + LogoParts(form))[j].key != key
  {
  }

  /** The contact fields are read as they are, and a logo is read exactly
      when the state holds a file. */
  lemma CreatePayloadContacts(form: Obj, userId: Value, status: string)
    ensures PartFor(CreatePayload(form, userId, status), "user_id") == Some(Plain(userId))
    ensures PartFor(CreatePayload(form, userId, status), "form_title") == Some(Plain(Get(form, "formTitle")))
    ensures PartFor(CreatePayload(form, userId, status), "company_logo").Some? <==> IsFile(Get(form, "companyLogo"))
  {
    var p := CreatePayload(form, userId, status);
    assert p[0] == Part("user_id", Plain(userId));
    PartForAt(p, 0);
    assert p[1] == Part("form_title", Plain(Get(form, "formTitle")));
    PartForAt(p, 1);
    LogoRead(form, userId, status);
  }

  lemma LogoRead(form: Obj, userId: Value, status: string)
    ensures PartFor(CreatePayload(form, userId, status), "company_logo").Some? <==> IsFile(Get(form, "companyLogo"))
  {
    var p := CreatePayload(form, userId, status);
    if IsFile(Get(form, "companyLogo")) {
      assert p[6].key == "company_logo";
    } else {
      forall j | 0 <= j < |p| ensures p[j].key != "company_logo" {
      }
    }
  }

  /** Each event field is in the `event_info` object with the state's value;
      unlike the edit wizard, an empty field is not replaced by "". */
  lemma EventInfoCarriesFields(form: Obj, i: nat)
    requires i < |EVENT_FIELDS|
    ensures (EVENT_FIELDS[i], Get(form, EVENT_FIELDS[i])) in OwnEntries(EventInfoObject(form))
  {
    assert Seqs.Map(EVENT_FIELDS, EventEntry(form))[i] == (EVENT_FIELDS[i], Get(form, EVENT_FIELDS[i]));
  }

  // ---------------------------------------------------------------------------
  // After a save

  /** `status` and `access_code || ""` from the response replace the form's. */
  function AfterSave(form: Obj, response: Obj): Obj {
    Set(Set(form, "status", Get(response, "status")), "accessCode", Or(Get(response, "access_code"), Str("")))
  }

  /** A save changes the status and the access code and nothing else; a
      response without an access code leaves "" rather than `undefined`. */
  lemma AfterSaveOnlyStatusAndCode(form: Obj, response: Obj, k: string)
    ensures Get(AfterSave(form, response), "status") == Get(response, "status")
    ensures !Truthy(Get(response, "access_code")) ==> Get(AfterSave(form, response), "accessCode") == Str("")
    ensures Truthy(Get(response, "access_code")) ==> Get(AfterSave(form, response), "accessCode") == Get(response, "access_code")
    ensures k != "status" && k != "accessCode" ==> Get(AfterSave(form, response), k) == Get(form, k)
  {
  }
}
