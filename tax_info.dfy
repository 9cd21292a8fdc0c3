/** The tax step of the form wizard. It reads the stored tax object into a
    choice among six presets (or a custom name and rate) and, whenever the
    choice changes, writes back a single-entry tax object into
    `formData.otherSettings.tax`. */
module TaxInfo {
  import opened Js

  /** One of the preset tax options; `optionLabel` is the option's `label`. */
  datatype Preset = Preset(key: string, optionLabel: string, rate: Option<real>, custom: bool)

  const PRESETS: seq<Preset> := [
    Preset("none", "No Tax", Some(0.0), false),
    Preset("gst5", "GST 5%", Some(5.0), false),
    Preset("gst12", "GST 12%", Some(12.0), false),
    Preset("gst18", "GST 18%", Some(18.0), false),
    Preset("vat20", "VAT 20%", Some(20.0), false),
    Preset("custom", "Custom", None, true)
  ]

  /** `presetOptions.find((o) => o.label === currentTaxName)`. */
  function FindByLabel(name: string): (r: Option<Preset>)
    ensures r.Some? ==> r.value in PRESETS && r.value.optionLabel == name
    ensures r.None? <==> forall i :: 0 <= i < |PRESETS| ==> PRESETS[i].optionLabel != name
  {
    if name == "No Tax" then Some(PRESETS[0])
    else if name == "GST 5%" then Some(PRESETS[1])
    else if name == "GST 12%" then Some(PRESETS[2])
    else if name == "GST 18%" then Some(PRESETS[3])
    else if name == "VAT 20%" then Some(PRESETS[4])
    else if name == "Custom" then Some(PRESETS[5])
    else None
  }

  /** `presetOptions.find((o) => o.key === key)`. */
  function FindByKey(key: string): (r: Option<Preset>)
    ensures r.Some? ==> r.value in PRESETS && r.value.key == key
    ensures r.None? <==> forall i :: 0 <= i < |PRESETS| ==> PRESETS[i].key != key
  {
    if key == "none" then Some(PRESETS[0])
    else if key == "gst5" then Some(PRESETS[1])
    else if key == "gst12" then Some(PRESETS[2])
    else if key == "gst18" then Some(PRESETS[3])
    else if key == "vat20" then Some(PRESETS[4])
    else if key == "custom" then Some(PRESETS[5])
    else None
  }

  /** `Number(v) || 0`. `parse` is `Number` on a string, None where it gives
      `NaN`; `undefined`, `null`, files and plain objects count as 0. An
      array is converted through its text, the comma-joined texts of its
      items. */
  function NumberOr0(v: Value, parse: string -> Option<real>): real {
    match v
    case Num(n) => n
    case Bool(b) => if b then 1.0 else 0.0
    case Str(s) => if parse(s).Some? then parse(s).value else 0.0
    case Arr(_) => TextNumberOr0(v, parse)
    case _ => 0.0
  }

  /** `Number(String(v)) || 0`: "" for `undefined`, `null` and the empty
      array is 0; "true", "false", "[object File]" and "[object Object]"
      are `NaN`; a number's text reads back as the number; an array of two
      or more items has a comma in its text and is `NaN`; an array of one
      item has that item's text. */
  function TextNumberOr0(v: Value, parse: string -> Option<real>): real {
    match v
    case Num(n) => n
    case Str(s) => if parse(s).Some? then parse(s).value else 0.0
    case Arr(items) => if |items| == 1 then TextNumberOr0(items[0], parse) else 0.0
    case _ => 0.0
  }

  /** A one-item array counts as its item's text: `[5]` is 5 and `["7"]`
      is what "7" parses to, but `[true]` is 0 where `true` is 1; a longer
      array is 0. */
  lemma ArrayRates(parse: string -> Option<real>, n: real, s: string, a: Value, b: Value)
    ensures NumberOr0(Arr([Num(n)]), parse) == n
    ensures NumberOr0(Arr([Str(s)]), parse) == NumberOr0(Str(s), parse)
    ensures NumberOr0(Arr([Bool(true)]), parse) == 0.0 && NumberOr0(Bool(true), parse) == 1.0
    ensures NumberOr0(Arr([Arr([Num(n)])]), parse) == n
    ensures NumberOr0(Arr([a, b]), parse) == 0.0 && NumberOr0(Arr([]), parse) == 0.0
  {
    OneItem(Num(n), parse);
    OneItem(Str(s), parse);
    OneItem(Bool(true), parse);
    OneItem(Arr([Num(n)]), parse);
  }

  /** A one-item array counts as its item's text. */
  lemma OneItem(v: Value, parse: string -> Option<real>)
    ensures NumberOr0(Arr([v]), parse) == TextNumberOr0(v, parse)
  {
    var items := [v];
    assert |items| == 1 && items[0] == v;
  }

  // ---------------------------------------------------------------------------
  // Reading

  /** The parsed tax object, or the `TypeError` the component throws when a
      stored string holds JSON that is not an object (`Object.keys(null)`,
      `"none" in 5`). */
  datatype TaxRead = Entries(e: Js.Entries) | Throws

  /** The parse of `formData.otherSettings.tax`. `parsed` is `JSON.parse` of
      it when it is a string, None where that fails. */
  function ReadTax(stored: Value, parsed: Option<Value>): TaxRead {
    if !Truthy(stored) then Entries([])
    else if stored.Str? then
      if parsed.None? then Entries([])
      else if IsObjectType(parsed.value) && parsed.value != Null then Entries(OwnEntries(parsed.value))
      else Throws
    else if stored.Object? || stored.FileRef? then Entries(OwnEntries(stored))
    else Entries([])
  }

  /** `Object.keys(taxObj)[0] || "none"`. */
  function CurrentName(e: Js.Entries): string {
    if e != [] && e[0].0 != "" then e[0].0 else "none"
  }

  /** `currentTaxName in taxObj ? taxObj[currentTaxName] : 0`. */
  function CurrentRate(e: Js.Entries): Value {
    var r := Lookup(e, CurrentName(e));
    if r.Some? then r.value else Num(0.0)
  }

  /** The three pieces of component state. */
  datatype Choice = Choice(selectedKey: string, customName: string, customRate: Value)

  /** The initial state: the preset whose label is the current name; else
      custom when the name is not "none"; else none. The custom name and
      rate are filled in only for a name that is neither a preset label nor
      "none". */
  function InitialChoice(e: Js.Entries, parse: string -> Option<real>): Choice {
    var name := CurrentName(e);
    var preset := FindByLabel(name);
    var isCustom := preset.None? && name != "none";
    Choice(
      if preset.Some? then preset.value.key else if name != "none" then "custom" else "none",
      if isCustom then name else "",
      if isCustom then Num(NumberOr0(CurrentRate(e), parse)) else Num(0.0))
  }

  // ---------------------------------------------------------------------------
  // Writing

  /** `{ ...prev, otherSettings: { ...prev.otherSettings, tax: { [name]: rate } } }`. */
  function SetTax(form: Obj, name: string, rate: real): Obj {
    Set(form, "otherSettings",
        Object(SetEntry(OwnEntries(Get(form, "otherSettings")), "tax", Object([(name, Num(rate))]))))
  }

  /** The entry the write-back effect stores: {customName: Number(customRate) || 0}
      for a named custom choice, {"none": 0} for none, {label: rate} for
      another preset; None when it stores nothing (a custom choice without a
      name, or a key no preset has). */
  function TaxEntry(c: Choice, parse: string -> Option<real>): Option<(string, real)> {
    if c.selectedKey == "custom" then
      if c.customName == "" then None else Some((c.customName, NumberOr0(c.customRate, parse)))
    else
      var opt := FindByKey(c.selectedKey);
      if opt.None? then None
      else Some((if opt.value.key == "none" then "none" else opt.value.optionLabel,
                 if opt.value.rate.Some? then opt.value.rate.value else 0.0))
  }

  /** The write-back effect: the form `setFormData` receives, or None when it
      is not called. */
  function WriteBack(form: Obj, c: Choice, parse: string -> Option<real>): Option<Obj> {
    var entry := TaxEntry(c, parse);
    if entry.None? then None else Some(SetTax(form, entry.value.0, entry.value.1))
  }

  /** The stored tax after a write-back. */
  function StoredTax(form: Obj): Option<Value> {
    Lookup(OwnEntries(Get(form, "otherSettings")), "tax")
  }

  /** What a write-back stores is always a one-entry object: {"none": 0} for
      none, {label: rate} for another preset, {name: Number(rate) || 0} for
      a named custom tax; a custom choice without a name and an unknown key
      store nothing. */
  lemma WriteBackSingleEntry(form: Obj, c: Choice, parse: string -> Option<real>)
    ensures WriteBack(form, c, parse).Some? <==>
              (c.selectedKey == "custom" && c.customName != "") || (c.selectedKey != "custom" && FindByKey(c.selectedKey).Some?)
    ensures WriteBack(form, c, parse).Some? ==>
              StoredTax(WriteBack(form, c, parse).value) ==
              Some(Object([(TaxEntry(c, parse).value.0, Num(TaxEntry(c, parse).value.1))]))
  {
  }

  /** The entry stored for each choice: {"none": 0} for none, {label: rate}
      for the preset at `i`, {name: Number(rate) || 0} for a named custom
      tax. */
  lemma TaxEntryCases(c: Choice, parse: string -> Option<real>, i: nat)
    ensures c.selectedKey == "none" ==> TaxEntry(c, parse) == Some(("none", 0.0))
    ensures 1 <= i < 5 && c.selectedKey == PRESETS[i].key ==>
              TaxEntry(c, parse) == Some((PRESETS[i].optionLabel, PRESETS[i].rate.value))
    ensures c.selectedKey == "custom" && c.customName != "" ==>
              TaxEntry(c, parse) == Some((c.customName, NumberOr0(c.customRate, parse)))
  {
  }

  /** Only `otherSettings.tax` changes: every other form field, and every
      other key of `otherSettings`, is kept. */
  lemma WriteBackKeepsTheRest(form: Obj, c: Choice, parse: string -> Option<real>, field: string, key: string)
    requires WriteBack(form, c, parse).Some?
    requires field != "otherSettings" && key != "tax"
    ensures Get(WriteBack(form, c, parse).value, field) == Get(form, field)
    ensures Lookup(OwnEntries(Get(WriteBack(form, c, parse).value, "otherSettings")), key) ==
            Lookup(OwnEntries(Get(form, "otherSettings")), key)
  {
  }

  // ---------------------------------------------------------------------------
  // Round trips

  /** The stored entry, read back by the component. */
  function Reread(c: Choice, parse: string -> Option<real>): Choice
    requires TaxEntry(c, parse).Some?
  {
    InitialChoice([(TaxEntry(c, parse).value.0, Num(TaxEntry(c, parse).value.1))], parse)
  }

  /** Choosing a preset and reading the stored tax back selects the same
      preset, whatever the custom name and rate fields hold; the choice read
      back has those fields empty. */
  lemma PresetRoundTrip(key: string, customName: string, customRate: Value, parse: string -> Option<real>)
    requires key in {"none", "gst5", "gst12", "gst18", "vat20"}
    ensures TaxEntry(Choice(key, customName, customRate), parse).Some?
    ensures Reread(Choice(key, customName, customRate), parse) == Choice(key, "", Num(0.0))
  {
    var c := Choice(key, customName, customRate);
    var p := FindByKey(key).value;
    var name := if key == "none" then "none" else p.optionLabel;
    assert TaxEntry(c, parse) == Some((name, p.rate.value));
    assert CurrentName([(name, Num(p.rate.value))]) == name;
    if key == "none" {
      assert FindByLabel("none").None?;
    } else {
      assert FindByLabel(p.optionLabel) == Some(p);
    }
  }

  /** The stored tax object reads back the same way as the stored object or
      as its JSON text. */
  lemma StoredTaxReadsBack(form: Obj, c: Choice, parse: string -> Option<real>, json: string)
    requires WriteBack(form, c, parse).Some? && json != ""
    ensures var tax := StoredTax(WriteBack(form, c, parse).value).value;
            ReadTax(tax, None) == ReadTax(Str(json), Some(tax)) ==
            Entries([(TaxEntry(c, parse).value.0, Num(TaxEntry(c, parse).value.1))])
  {
  }

  /** A custom name that is not a preset label and not "none", read back,
      is a custom choice with that name and with the rate as a number. */
  lemma CustomRoundTrip(name: string, rate: Value, parse: string -> Option<real>)
    requires name != "" && name != "none" && FindByLabel(name).None?
    ensures TaxEntry(Choice("custom", name, rate), parse).Some?
    ensures Reread(Choice("custom", name, rate), parse) == Choice("custom", name, Num(NumberOr0(rate, parse)))
  {
  }

  /** A stored tax named "Custom" selects the custom option with an empty
      name, so the component writes nothing until a name is typed. */
  lemma CustomLabelStaysUnwritten(form: Obj, rate: Value, parse: string -> Option<real>)
    ensures InitialChoice([("Custom", rate)], parse) == Choice("custom", "", Num(0.0))
    ensures WriteBack(form, InitialChoice([("Custom", rate)], parse), parse) == None
  {
  }

  /** A stored tax named "No Tax" reads as none and is rewritten as
      {"none": 0}, whatever rate it carried. */
  lemma NoTaxLabelRewritten(rate: Value, parse: string -> Option<real>)
    ensures InitialChoice([("No Tax", rate)], parse).selectedKey == "none"
    ensures TaxEntry(InitialChoice([("No Tax", rate)], parse), parse) == Some(("none", 0.0))
  {
  }

  /** Reading: a missing or empty tax is none; a string that fails to parse
      is none; JSON holding a number, a boolean, a string or null throws. */
  lemma ReadTaxCases(s: string, parse: string -> Option<real>, v: Value)
    ensures ReadTax(Undefined, None) == Entries([]) && ReadTax(Str(""), Some(v)) == Entries([])
    ensures s != "" ==> ReadTax(Str(s), None) == Entries([])
    ensures s != "" && (v.Num? || v.Bool? || v.Str? || v.Null? || v.Undefined?) ==> ReadTax(Str(s), Some(v)) == Throws
    ensures InitialChoice([], parse) == Choice("none", "", Num(0.0))
  {
  }
}
