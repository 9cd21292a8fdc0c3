/** The editor of an existing order form: how the stored form is loaded into
    the wizard's state, how a draft or a published form is validated, the
    readable names of the form's fields, and the multipart payload that is
    sent back. */
module EditForm {
  import opened Js
  import opened Seqs
  import opened FormState
  import TaxInfo

  /** The fields a published form must have, in the order they are checked. */
  const REQUIRED: seq<string> := ["formTitle", "contactName", "contactEmail", "contactPhone", "companyName",
                                  "showName", "facility", "room", "startDate", "finishDate"]

  // ---------------------------------------------------------------------------
  // Field names

  /** `fieldNameMap[fieldName]`. */
  function LabelFor(name: string): Option<string> {
    if name == "formTitle" then Some("Form Title")
    else if name == "contactName" then Some("Contact Name")
    else if name == "contactEmail" then Some("Contact Email")
    else if name == "contactPhone" then Some("Contact Phone")
    else if name == "companyName" then Some("Company Name")
    else if name == "companyLogo" then Some("Company Logo")
    else if name == "showName" then Some("Show Name")
    else if name == "facility" then Some("Facility")
    else if name == "room" then Some("Room")
    else if name == "loadInDate" then Some("Load In Date")
    else if name == "loadInTime" then Some("Load In Time")
    else if name == "startDate" then Some("Start Date")
    else if name == "startTime" then Some("Start Time")
    else if name == "finishDate" then Some("Finish Date")
    else if name == "finishTime" then Some("Finish Time")
    else None
  }

  predicate IsCapital(c: char) {
    'A' <= c <= 'Z'
  }

  /** `s.replace(/([A-Z])/g, ' $1')`: a space before every capital. */
  function SpaceCapitals(s: string): string {
    if s == [] then []
    else SpaceCapitals(s[..|s| - 1]) + (if IsCapital(s[|s| - 1]) then [' ', s[|s| - 1]] else [s[|s| - 1]])
  }

  /** The characters `.` does not match. */
  predicate IsLineTerminator(c: char) {
    c == '\n' || c == '\r' || c == '\U{2028}' || c == '\U{2029}'
  }

  /** `s.replace(/^./, str => str.toUpperCase())`. */
  function CapitalizeFirst(s: string): string {
    if s != [] && !IsLineTerminator(s[0]) then [Upper(s[0])] + s[1..] else s
  }

  /** `formatFieldName`: the table's label, else the name split before its
      capitals with its first letter raised. */
  function FormatFieldName(name: string): string {
    var title := LabelFor(name);
    if title.Some? && title.value != "" then title.value else CapitalizeFirst(SpaceCapitals(name))
  }

  /** Applying `f` to every character that is not a space. */
  function NonSpace(): char -> bool {
    (c: char) => c != ' '
  }

  /** Splitting only inserts spaces: with the spaces struck out, the result
      is the name with its spaces struck out. */
  lemma {:induction false} SpaceCapitalsInsertsOnlySpaces(s: string)
    ensures Filter(SpaceCapitals(s), NonSpace()) == Filter(s, NonSpace())
  {
    if s != [] {
      var s' := s[..|s| - 1];
      var c := s[|s| - 1];
      SpaceCapitalsInsertsOnlySpaces(s');
      assert s == s' + [c];
      FilterAppend(s', NonSpace(), c);
      if IsCapital(c) {
        FilterConcat(SpaceCapitals(s'), [' ', c], NonSpace());
        assert [' ', c] == [' '] + [c];
        FilterConcat([' '], [c], NonSpace());
        assert Filter([' '], NonSpace()) == [];
        assert Filter([c], NonSpace()) == [c];
      } else {
        FilterAppend(SpaceCapitals(s'), NonSpace(), c);
      }
    }
  }

  /** Every capital of the split name has a space right before it. */
  lemma {:induction false} CapitalsFollowSpaces(s: string)
    ensures forall i :: 0 <= i < |SpaceCapitals(s)| && IsCapital(SpaceCapitals(s)[i]) ==>
              i > 0 && SpaceCapitals(s)[i - 1] == ' '
  {
    if s != [] {
      var s' := s[..|s| - 1];
      CapitalsFollowSpaces(s');
      var a := SpaceCapitals(s');
      var r := SpaceCapitals(s);
      forall i | 0 <= i < |r| && IsCapital(r[i]) ensures i > 0 && r[i - 1] == ' ' {
        if i < |a| {
          assert r[i] == a[i] && r[i - 1] == a[i - 1];
        }
      }
    }
  }

  /** The messages of the publish check name the ten required fields by
      their table labels. */
  lemma RequiredFieldLabels()
    ensures FormatFieldName("formTitle") == "Form Title" && FormatFieldName("contactName") == "Contact Name"
    ensures FormatFieldName("contactEmail") == "Contact Email" && FormatFieldName("contactPhone") == "Contact Phone"
    ensures FormatFieldName("companyName") == "Company Name" && FormatFieldName("showName") == "Show Name"
    ensures FormatFieldName("facility") == "Facility" && FormatFieldName("room") == "Room"
    ensures FormatFieldName("startDate") == "Start Date" && FormatFieldName("finishDate") == "Finish Date"
  {
    ContactFieldLabels();
    EventFieldLabels();
  }

  /** The labels of the title and the contact fields. */
  lemma ContactFieldLabels()
    ensures FormatFieldName("formTitle") == "Form Title" && FormatFieldName("contactName") == "Contact Name"
    ensures FormatFieldName("contactEmail") == "Contact Email" && FormatFieldName("contactPhone") == "Contact Phone"
    ensures FormatFieldName("companyName") == "Company Name"
  {
  }

  /** The labels of the required event fields. */
  lemma EventFieldLabels()
    ensures FormatFieldName("showName") == "Show Name"
    ensures FormatFieldName("facility") == "Facility" && FormatFieldName("room") == "Room"
    ensures FormatFieldName("startDate") == "Start Date" && FormatFieldName("finishDate") == "Finish Date"
  {
  }

  /** A name outside the table is split before its capitals and raised:
      "tradeshowName" reads "Tradeshow Name". */
  lemma FallbackSplitsCapitals()
    ensures FormatFieldName("tradeshowName") == "Tradeshow Name"
  {
    NotInTable();
    SplitsTradeshowName();
    RaisesTradeshow();
  }

  /** The name has no entry in the label table. */
  lemma NotInTable()
    ensures LabelFor("tradeshowName") == None
  {
  }

  /** Raising the first letter of the split name. */
  lemma RaisesTradeshow()
    ensures CapitalizeFirst("tradeshow Name") == "Tradeshow Name"
  {
  }

  /** The split of the one name: a space before its one capital. */
  lemma SplitsTradeshowName()
    ensures SpaceCapitals("tradeshowName") == "tradeshow Name"
  {
    var a, b := "tradeshow", "ame";
    assert a + ['N'] + b == "tradeshowName";
    assert a + [' ', 'N'] + b == "tradeshow Name";
    SplitsOneCapital(a, 'N', b);
  }

  /** A name with a single capital gets a single space, right before it. */
  lemma {:induction false} SplitsOneCapital(a: string, c: char, b: string)
    requires forall i :: 0 <= i < |a| ==> !IsCapital(a[i])
    requires forall i :: 0 <= i < |b| ==> !IsCapital(b[i])
    requires IsCapital(c)
    ensures SpaceCapitals(a + [c] + b) == a + [' ', c] + b
  {
    if b == [] {
      SpaceCapitalsKeepsLowercase(a);
      assert a + [c] + b == a + [c];
      SpaceCapitalsAppend(a, c);
    } else {
      var b' := b[..|b| - 1];
      SplitsOneCapital(a, c, b');
      assert a + [c] + b == (a + [c] + b') + [b[|b| - 1]];
      SpaceCapitalsAppend(a + [c] + b', b[|b| - 1]);
      assert a + [' ', c] + b == (a + [' ', c] + b') + [b[|b| - 1]];
    }
  }

  /** Splitting a name with one more character splits the name and then
      the character alone. */
  lemma SpaceCapitalsAppend(s: string, c: char)
    ensures SpaceCapitals(s + [c]) == SpaceCapitals(s) + (if IsCapital(c) then [' ', c] else [c])
  {
    assert (s + [c])[..|s|] == s;
  }

  /** A name without capitals is left as it is. */
  lemma {:induction false} SpaceCapitalsKeepsLowercase(s: string)
    requires forall i :: 0 <= i < |s| ==> !IsCapital(s[i])
    ensures SpaceCapitals(s) == s
  {
    if s != [] {
      SpaceCapitalsKeepsLowercase(s[..|s| - 1]);
    }
  }

  // ---------------------------------------------------------------------------
  // Validation

  /** `validateForm(status)`: a draft needs a title; anything else needs the
      required fields in order, then a product, then a chosen tax. */
  function Validation(form: Obj, taxSelected: bool, status: string): Outcome {
    if status == "draft" then
      if Truthy(Get(form, "formTitle")) then Pass else Fail("Form title is required for draft")
    else
      var first := FirstEmpty(form, REQUIRED);
      if first.Some? then Fail("Please fill " + FormatFieldName(REQUIRED[first.value]))
      else if |Items(Get(form, "products"))| == 0 then Fail("Please select at least one product")
      else if !taxSelected then Fail("Please select a tax option")
      else Pass
  }

  /** The validator as written: the field loop with its early return. */
  method ValidateForm(form: Obj, taxSelected: bool, status: string) returns (r: Outcome)
    ensures r == Validation(form, taxSelected, status)
  {
    if status == "draft" {
      if !Truthy(Get(form, "formTitle")) {
        return Fail("Form title is required for draft");
      }
      return Pass;
    }
    var first := FindFirstEmpty(form, REQUIRED);
    if first.Some? {
      return Fail("Please fill " + FormatFieldName(REQUIRED[first.value]));
    }
    if |Items(Get(form, "products"))| == 0 {
      return Fail("Please select at least one product");
    }
    if !taxSelected {
      return Fail("Please select a tax option");
    }
    return Pass;
  }

  /** A draft passes exactly when it has a title. */
  lemma DraftRule(form: Obj, taxSelected: bool)
    ensures Validation(form, taxSelected, "draft") == Pass <==> Truthy(Get(form, "formTitle"))
    ensures !Truthy(Get(form, "formTitle")) ==> Validation(form, taxSelected, "draft") == Fail("Form title is required for draft")
  {
  }

  /** Publishing passes exactly when every required field is filled in, a
      product is chosen and a tax is selected. */
  lemma PublishRule(form: Obj, taxSelected: bool, status: string)
    requires status != "draft"
    ensures Validation(form, taxSelected, status) == Pass <==>
              (forall i :: 0 <= i < |REQUIRED| ==> Truthy(Get(form, REQUIRED[i]))) &&
              |Items(Get(form, "products"))| > 0 && taxSelected
  {
  }

  /** Publishing reports the first empty required field, ahead of any
      missing product or tax. */
  lemma PublishReportsFirstEmpty(form: Obj, taxSelected: bool, status: string, i: nat)
    requires status != "draft" && i < |REQUIRED| && !Truthy(Get(form, REQUIRED[i]))
    requires forall j :: 0 <= j < i ==> Truthy(Get(form, REQUIRED[j]))
    ensures Validation(form, taxSelected, status) == Fail("Please fill " + FormatFieldName(REQUIRED[i]))
  {
    FirstEmptyIsUnique(form, REQUIRED, i);
  }

  /** With every field filled in, a missing product is reported before a
      missing tax. */
  lemma ProductBeforeTax(form: Obj, status: string)
    requires status != "draft" && forall i :: 0 <= i < |REQUIRED| ==> Truthy(Get(form, REQUIRED[i]))
    ensures |Items(Get(form, "products"))| == 0 ==> Validation(form, false, status) == Fail("Please select at least one product")
    ensures |Items(Get(form, "products"))| > 0 ==> Validation(form, false, status) == Fail("Please select a tax option")
  {
  }

  /** A form that could be published could also be saved as a draft. */
  lemma PublishImpliesDraft(form: Obj, taxSelected: bool, status: string)
    requires status != "draft" && Validation(form, taxSelected, status) == Pass
    ensures Validation(form, taxSelected, "draft") == Pass
  {
    assert REQUIRED[0] == "formTitle";
  }

  // ---------------------------------------------------------------------------
  // Loading

  /** `taxObj`: the stored tax, parsed when it is a string (`parsed` is
      `JSON.parse` of it, None where that throws), `{}` when it is missing or
      unparseable. */
  function TaxObject(stored: Value, parsed: Option<Value>): Value {
    if !Truthy(stored) then Object([])
    else if stored.Str? then (if parsed.Some? then parsed.value else Object([]))
    else stored
  }

  /** `taxSelected` after loading: the parsed tax is truthy with at least one
      own key. */
  predicate TaxSelectedOnLoad(stored: Value, parsed: Option<Value>) {
    var tax := TaxObject(stored, parsed);
    Truthy(tax) && |OwnEntries(tax)| > 0
  }

  /** The event fields of the loaded state: `data.event_info?.[k] || ""`. */
  function EventState(ev: Value): Obj {
    map k | k in EVENT_FIELDS :: Or(Prop(ev, k), Str(""))
  }

  /** The loaded state's own fields, before the event fields. */
  function OwnState(data: Obj, parsed: Option<Value>): Obj {
    var settings := Get(data, "other_settings");
    map[
      "formTitle" := Get(data, "form_title"),
      "contactName" := Get(data, "contact_name"),
      "contactEmail" := Get(data, "contact_email"),
      "contactPhone" := Get(data, "contact_phone"),
      "companyName" := Get(data, "company_name"),
      "companyLogo" := Get(data, "company_logo"),
      "companyLogoUrl" := Get(data, "company_logo_url"),
      "products" := Or(Get(data, "product_select"), Arr([])),
      "status" := Or(Get(data, "status"), Str("")),
      "accessCode" := Or(Get(data, "access_code"), Str("")),
      "otherSettings" := Object(SetEntry(OwnEntries(settings), "tax", TaxObject(Prop(settings, "tax"), parsed)))
    ]
  }

  /** The form state built from the stored record `data`: its own fields,
      then the nine event fields. */
  function LoadedForm(data: Obj, parsed: Option<Value>): Obj {
    OwnState(data, parsed) + EventState(Get(data, "event_info"))
  }

  /** A key that is not an event field keeps its own value. */
  lemma OwnKeyLoaded(data: Obj, parsed: Option<Value>, k: string)
    requires k !in EVENT_FIELDS
    ensures Get(LoadedForm(data, parsed), k) == Get(OwnState(data, parsed), k)
  {
  }

  /** Every event field is loaded from `event_info`, and one that is missing
      or empty there becomes "". */
  lemma LoadedEventFields(data: Obj, parsed: Option<Value>, k: string)
    requires k in EVENT_FIELDS
    ensures Get(LoadedForm(data, parsed), k) == Or(Prop(Get(data, "event_info"), k), Str(""))
    ensures !Truthy(Prop(Get(data, "event_info"), k)) ==> Get(LoadedForm(data, parsed), k) == Str("")
  {
  }

  /** The keys of the loaded state that are not event fields. */
  lemma OwnFieldsAreNotEvents()
    ensures "otherSettings" !in EVENT_FIELDS && "products" !in EVENT_FIELDS
    ensures "status" !in EVENT_FIELDS && "accessCode" !in EVENT_FIELDS
  {
  }

  lemma LoadedOtherSettings(data: Obj, parsed: Option<Value>)
    ensures var settings := Get(data, "other_settings");
            Get(LoadedForm(data, parsed), "otherSettings") ==
            Object(SetEntry(OwnEntries(settings), "tax", TaxObject(Prop(settings, "tax"), parsed)))
  {
    OwnFieldsAreNotEvents();
    OwnKeyLoaded(data, parsed, "otherSettings");
  }

  /** The loaded settings are the stored ones with `tax` replaced by its
      parsed object. */
  lemma LoadedSettings(data: Obj, parsed: Option<Value>, key: string)
    requires key != "tax"
    ensures Lookup(OwnEntries(Get(LoadedForm(data, parsed), "otherSettings")), "tax") ==
            Some(TaxObject(Prop(Get(data, "other_settings"), "tax"), parsed))
    ensures Lookup(OwnEntries(Get(LoadedForm(data, parsed), "otherSettings")), key) ==
            Lookup(OwnEntries(Get(data, "other_settings")), key)
  {
    OwnFieldsAreNotEvents();
    var settings := Get(data, "other_settings");
    var entries := SetEntry(OwnEntries(settings), "tax", TaxObject(Prop(settings, "tax"), parsed));
    assert Get(LoadedForm(data, parsed), "otherSettings") == Object(entries);
  }

  /** Products default to `[]`, status and access code to "". */
  lemma LoadedDefaults(data: Obj, parsed: Option<Value>)
    ensures Get(LoadedForm(data, parsed), "products") == Or(Get(data, "product_select"), Arr([]))
    ensures !Truthy(Get(data, "product_select")) ==> Get(LoadedForm(data, parsed), "products") == Arr([])
    ensures !Truthy(Get(data, "status")) ==> Get(LoadedForm(data, parsed), "status") == Str("")
    ensures !Truthy(Get(data, "access_code")) ==> Get(LoadedForm(data, parsed), "accessCode") == Str("")
  {
    OwnFieldsAreNotEvents();
    OwnKeyLoaded(data, parsed, "products");
    OwnKeyLoaded(data, parsed, "status");
    OwnKeyLoaded(data, parsed, "accessCode");
    OwnDefaults(data, parsed);
  }

  /** The three fields of the form's own state that have defaults. */
  lemma OwnDefaults(data: Obj, parsed: Option<Value>)
    ensures Get(OwnState(data, parsed), "products") == Or(Get(data, "product_select"), Arr([]))
    ensures Get(OwnState(data, parsed), "status") == Or(Get(data, "status"), Str(""))
    ensures Get(OwnState(data, parsed), "accessCode") == Or(Get(data, "access_code"), Str(""))
  {
    var o := OwnState(data, parsed);
    assert o["products"] == Or(Get(data, "product_select"), Arr([]));
    assert o["status"] == Or(Get(data, "status"), Str(""));
    assert o["accessCode"] == Or(Get(data, "access_code"), Str(""));
  }

  /** A tax the tax step wrote, stored as an object or as its JSON text,
      marks the tax as selected on load; the initial empty tax and an
      unparseable string do not. */
  lemma WrittenTaxSelects(form: Obj, c: TaxInfo.Choice, parse: string -> Option<real>, json: string, v: Value)
    requires TaxInfo.WriteBack(form, c, parse).Some? && json != ""
    ensures var tax := TaxInfo.StoredTax(TaxInfo.WriteBack(form, c, parse).value).value;
            TaxSelectedOnLoad(tax, None) && TaxSelectedOnLoad(Str(json), Some(tax))
    ensures !TaxSelectedOnLoad(Object([]), Some(v)) && !TaxSelectedOnLoad(Str(json), None)
  {
  }

  // ---------------------------------------------------------------------------
  // Saving

  function EventKey(k: string): string {
    "event_info[" + k + "]"
  }

  function EventPart(form: Obj): string -> Part {
    (k: string) => Part(EventKey(k), Plain(Or(Get(form, k), Str(""))))
  }

  function ProductPart(i: nat, id: Value): Part {
    Part("product_select[" + NatToString(i) + "]", Plain(id))
  }

  function ProductParts(items: seq<Value>): Payload {
    seq(|items|, i requires 0 <= i < |items| => ProductPart(i, items[i]))
  }

  /** An object-typed setting (`null` included) goes as JSON text. */
  function SettingPart(e: (string, Value)): Part {
    Part("other_settings[" + e.0 + "]", if IsObjectType(e.1) then JsonOf(e.1) else Plain(e.1))
  }

  function Settings(form: Obj): Entries {
    OwnEntries(Or(Get(form, "otherSettings"), Object([])))
  }

  /** The payload `saveForm(status)` posts. */
  function SavePayload(form: Obj, userId: Value, status: string): Payload {
    HeaderParts(form, userId) + LogoParts(form) + Map(EVENT_FIELDS, EventPart(form)) +
    ProductParts(Items(Get(form, "products"))) + Map(Settings(form), SettingPart) +
    [Part("status", Plain(Str(status)))]
  }

  /** `saveForm`'s successive `append` calls. */
  method BuildSavePayload(form: Obj, userId: Value, status: string) returns (payload: Payload)
    ensures payload == SavePayload(form, userId, status)
  {
    payload := OpenPayload(form, userId);
    if IsFile(Get(form, "companyLogo")) {
      payload := payload + [Part("company_logo", Plain(Get(form, "companyLogo")))];
    } else {
      assert payload + [] == payload;
    }
    assert payload == HeaderParts(form, userId) + LogoParts(form);
    payload := AppendEventFields(payload, form, EVENT_FIELDS);
    payload := AppendProducts(payload, Items(Get(form, "products")));
    payload := AppendSettings(payload, Settings(form));
    payload := payload + [Part("status", Plain(Str(status)))];
  }

  /** `eventFields.forEach((key) => payload.append(…, formData[key] || ""))`. */
  method AppendEventFields(payload: Payload, form: Obj, fields: seq<string>) returns (r: Payload)
    ensures r == payload + Map(fields, EventPart(form))
  {
    r := payload;
    var i := 0;
    while i < |fields|
      invariant 0 <= i <= |fields|
      invariant r == payload + Map(fields[..i], EventPart(form))
    {
      assert fields[..i + 1][..i] == fields[..i];
      var key := fields[i];
      r := r + [Part(EventKey(key), Plain(Or(Get(form, key), Str(""))))];
      i := i + 1;
    }
    assert fields[..i] == fields;
  }

  /** `formData.products.forEach((productId, index) => payload.append(…))`. */
  method AppendProducts(payload: Payload, items: seq<Value>) returns (r: Payload)
    ensures r == payload + ProductParts(items)
  {
    r := payload;
    var j := 0;
    while j < |items|
      invariant 0 <= j <= |items|
      invariant r == payload + ProductParts(items[..j])
    {
      assert ProductParts(items[..j + 1]) == ProductParts(items[..j]) + [ProductPart(j, items[j])];
      r := r + [ProductPart(j, items[j])];
      j := j + 1;
    }
    assert items[..j] == items;
  }

  /** `Object.entries(formData.otherSettings || {}).forEach(…)`. */
  method AppendSettings(payload: Payload, settings: Entries) returns (r: Payload)
    ensures r == payload + Map(settings, SettingPart)
  {
    r := payload;
    var n := 0;
    while n < |settings|
      invariant 0 <= n <= |settings|
      invariant r == payload + Map(settings[..n], SettingPart)
    {
      assert settings[..n + 1][..n] == settings[..n];
      var (key, value) := settings[n];
      r := r + [Part("other_settings[" + key + "]", if IsObjectType(value) then JsonOf(value) else Plain(value))];
      n := n + 1;
    }
    assert settings[..n] == settings;
  }

  /** Distinct event fields have distinct keys. */
  lemma EventKeyInjective(a: string, b: string)
    requires EventKey(a) == EventKey(b)
    ensures a == b
  {
    assert |a| == |b|;
    assert a == EventKey(a)[11..11 + |a|];
    assert b == EventKey(b)[11..11 + |b|];
  }

  /** No key of the opening entries is an event-field or a product key. */
  lemma OpeningKeys(form: Obj, userId: Value)
    ensures forall j :: 0 <= j < |HeaderParts(form, userId) + LogoParts(form)| ==>
              |(HeaderParts(form, userId) + LogoParts(form))[j].key| < 15 &&
              (HeaderParts(form, userId) + LogoParts(form))[j].key[0] != 'e'
  {
  }

  /** The nine event fields are distinct. */
  lemma EventFieldsDistinct()
    ensures forall x, y :: 0 <= x < y < |EVENT_FIELDS| ==> EVENT_FIELDS[x] != EVENT_FIELDS[y]
  {
  }

  /** The receiver reads every one of the nine event fields from the
      payload: the form's value, or "" when it is empty. */
  lemma EventFieldsSent(form: Obj, userId: Value, status: string, i: nat)
    requires i < |EVENT_FIELDS|
    ensures PartFor(SavePayload(form, userId, status), EventKey(EVENT_FIELDS[i])) ==
            Some(Plain(Or(Get(form, EVENT_FIELDS[i]), Str(""))))
  {
    var a := HeaderParts(form, userId) + LogoParts(form);
    var e := Map(EVENT_FIELDS, EventPart(form));
    var key := EventKey(EVENT_FIELDS[i]);
    EventFieldsDistinct();
    forall j | 0 <= j < i ensures e[j].key != e[i].key {
      if e[j].key == e[i].key {
        EventKeyInjective(EVENT_FIELDS[j], EVENT_FIELDS[i]);
      }
    }
    PartForAt(e, i);
    OpeningKeys(form, userId);
    forall j | 0 <= j < |a| ensures a[j].key != key {
      assert key[0] == 'e';
    }
    PartForSkip(a, e, key);
    var products := ProductParts(Items(Get(form, "products")));
    var settings := Map(Settings(form), SettingPart);
    PartForPrefix(a + e, products, key);
    PartForPrefix(a + e + products, settings, key);
    PartForPrefix(a + e + products + settings, [Part("status", Plain(Str(status)))], key);
  }

  /** An entry that carries a product id. */
  predicate IsProductKey(part: Part) {
    StartsWith(part.key, "product_select[")
  }

  function ValueOf(part: Part): PartValue {
    part.value
  }

  function PlainOf(v: Value): PartValue {
    Plain(v)
  }

  /** What the receiver collects under `product_select[…]`, in payload order. */
  function ProductsPosted(p: Payload): seq<PartValue> {
    Map(Filter(p, IsProductKey), ValueOf)
  }

  /** The product entries are exactly the form's product ids, in list order. */
  lemma ProductsSentInOrder(form: Obj, userId: Value, status: string)
    ensures ProductsPosted(SavePayload(form, userId, status)) == Map(Items(Get(form, "products")), PlainOf)
  {
    var h := HeaderParts(form, userId) + LogoParts(form) + Map(EVENT_FIELDS, EventPart(form));
    var b := ProductParts(Items(Get(form, "products")));
    var s := Map(Settings(form), SettingPart) + [Part("status", Plain(Str(status)))];
    NoProductKeyBefore(form, userId);
    NoProductKeyAfter(form, status);
    ProductKeysKept(Items(Get(form, "products")));
    FilterConcat(h, b, IsProductKey);
    FilterConcat(h + b, s, IsProductKey);
    assert SavePayload(form, userId, status) == h + b + s;
  }

  lemma NoProductKeyBefore(form: Obj, userId: Value)
    ensures Filter(HeaderParts(form, userId) + LogoParts(form) + Map(EVENT_FIELDS, EventPart(form)), IsProductKey) == []
  {
    var h := HeaderParts(form, userId) + LogoParts(form);
    var e := Map(EVENT_FIELDS, EventPart(form));
    OpeningNotProducts(form, userId);
    EventsNotProducts(form);
    FilterConcat(h, e, IsProductKey);
  }

  lemma OpeningNotProducts(form: Obj, userId: Value)
    ensures Filter(HeaderParts(form, userId) + LogoParts(form), IsProductKey) == []
  {
    OpeningKeys(form, userId);
    FilterKeepsNone(HeaderParts(form, userId) + LogoParts(form), IsProductKey);
  }

  lemma EventsNotProducts(form: Obj)
    ensures Filter(Map(EVENT_FIELDS, EventPart(form)), IsProductKey) == []
  {
    var e := Map(EVENT_FIELDS, EventPart(form));
    forall i | 0 <= i < |e| ensures !IsProductKey(e[i]) {
      assert e[i].key == EventKey(EVENT_FIELDS[i]);
      assert e[i].key[0] == 'e';
    }
    FilterKeepsNone(e, IsProductKey);
  }

  lemma NoProductKeyAfter(form: Obj, status: string)
    ensures Filter(Map(Settings(form), SettingPart) + [Part("status", Plain(Str(status)))], IsProductKey) == []
  {
    var s := Map(Settings(form), SettingPart);
    var last := [Part("status", Plain(Str(status)))];
    forall i | 0 <= i < |s| ensures !IsProductKey(s[i]) {
      assert s[i].key[0] == 'o';
    }
    FilterKeepsNone(s, IsProductKey);
    FilterKeepsNone(last, IsProductKey);
    FilterConcat(s, last, IsProductKey);
  }

  lemma ProductKeysKept(items: seq<Value>)
    ensures Map(Filter(ProductParts(items), IsProductKey), ValueOf) == Map(items, PlainOf)
  {
    var b := ProductParts(items);
    forall i | 0 <= i < |b| ensures IsProductKey(b[i]) {
      assert b[i].key[..15] == "product_select[";
    }
    FilterKeepsAll(b, IsProductKey);
  }

  /** Every setting is sent under its own key, as JSON text exactly when it
      is object-typed. */
  lemma SettingsSent(form: Obj, userId: Value, status: string, k: string, v: Value)
    requires (k, v) in Settings(form)
    ensures Part("other_settings[" + k + "]", if IsObjectType(v) then JsonOf(v) else Plain(v)) in SavePayload(form, userId, status)
  {
    var e := Settings(form);
    var n :| 0 <= n < |e| && e[n] == (k, v);
    var front := HeaderParts(form, userId) + LogoParts(form) + Map(EVENT_FIELDS, EventPart(form)) +
                 ProductParts(Items(Get(form, "products")));
    var last := [Part("status", Plain(Str(status)))];
    assert SavePayload(form, userId, status) == front + Map(e, SettingPart) + last;
    MapInMiddle(front, e, SettingPart, last, n);
  }

  /** Saving a freshly loaded form posts back each stored event field, ""
      where it was missing. */
  lemma SaveAfterLoadEventFields(data: Obj, parsed: Option<Value>, userId: Value, status: string, i: nat)
    requires i < |EVENT_FIELDS|
    ensures PartFor(SavePayload(LoadedForm(data, parsed), userId, status), EventKey(EVENT_FIELDS[i])) ==
            Some(Plain(Or(Prop(Get(data, "event_info"), EVENT_FIELDS[i]), Str(""))))
  {
    EventFieldsSent(LoadedForm(data, parsed), userId, status, i);
    LoadedEventFields(data, parsed, EVENT_FIELDS[i]);
  }

  /** Saving a freshly loaded form posts back the stored product ids, in order. */
  lemma SaveAfterLoadProducts(data: Obj, parsed: Option<Value>, userId: Value, status: string)
    ensures ProductsPosted(SavePayload(LoadedForm(data, parsed), userId, status)) ==
            Map(Items(Or(Get(data, "product_select"), Arr([]))), PlainOf)
  {
    LoadedDefaults(data, parsed);
    ProductsSentInOrder(LoadedForm(data, parsed), userId, status);
  }

  lemma TaxSettingKey()
    ensures "other_settings[" + "tax" + "]" == "other_settings[tax]"
  {
  }

  /** Saving a freshly loaded form posts the parsed tax object, as JSON text
      when it is object-typed. */
  lemma SaveAfterLoadTax(data: Obj, parsed: Option<Value>, userId: Value, status: string)
    ensures var tax := TaxObject(Prop(Get(data, "other_settings"), "tax"), parsed);
            IsObjectType(tax) ==> Part("other_settings[tax]", JsonOf(tax)) in SavePayload(LoadedForm(data, parsed), userId, status)
  {
    var form := LoadedForm(data, parsed);
    var settings := Get(data, "other_settings");
    var tax := TaxObject(Prop(settings, "tax"), parsed);
    var entries := SetEntry(OwnEntries(settings), "tax", tax);
    LoadedOtherSettings(data, parsed);
    assert Settings(form) == entries;
    assert Lookup(entries, "tax") == Some(tax);
    SettingsSent(form, userId, status, "tax", tax);
    TaxSettingKey();
  }

  // ---------------------------------------------------------------------------
  // After a save

  /** The response's status and access code replace the form's. */
  function AfterSave(form: Obj, response: Obj): Obj {
    Set(Set(form, "status", Get(response, "status")), "accessCode", Get(response, "access_code"))
  }

  /** A save changes the status and the access code to the server's, and
      nothing else. */
  lemma AfterSaveOnlyStatusAndCode(form: Obj, response: Obj, k: string)
    ensures Get(AfterSave(form, response), "status") == Get(response, "status")
    ensures Get(AfterSave(form, response), "accessCode") == Get(response, "access_code")
    ensures k != "status" && k != "accessCode" ==> Get(AfterSave(form, response), k) == Get(form, k)
  {
  }
}
