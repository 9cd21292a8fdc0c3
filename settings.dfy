/** The company settings page: the record loaded from the server (text
    fields defaulting to "", no new logo), the logo guard and its removal,
    and a submission that needs a company name and sends the logo only when
    one was chosen. */
module Settings {
  import opened Js
  import opened Upload

  /** The record the page starts from. */
  const INITIAL: Obj := map[
    "companyName" := Str(""), "logo" := Null, "address1" := Str(""), "address2" := Str(""),
    "telephone" := Str(""), "tollFree" := Str(""), "siteUrl" := Str("")]

  /** `v || ""`. */
  function OrEmpty(v: Value): Value {
    Or(v, Str(""))
  }

  /** The record for a truthy response `data`. */
  function FromResponse(data: Value): Obj {
    map[
      "companyName" := OrEmpty(Prop(data, "company_name")),
      "logo" := Null,
      "address1" := OrEmpty(Prop(data, "address1")),
      "address2" := OrEmpty(Prop(data, "address2")),
      "telephone" := OrEmpty(Prop(data, "telephone")),
      "tollFree" := OrEmpty(Prop(data, "toll_free")),
      "siteUrl" := OrEmpty(Prop(data, "site_url"))]
  }

  /** The page once the response arrived: a falsy response keeps it; the
      stored logo becomes the preview only when there is one. */
  function Loaded(ed: Editor, data: Value): Editor {
    if !Truthy(data) then ed
    else Editor(FromResponse(data), if Truthy(Prop(data, "logo_url")) then Prop(data, "logo_url") else ed.preview)
  }

  /** The record's text fields and the response keys they are loaded from. */
  const TEXT_FIELDS: seq<string> := ["companyName", "address1", "address2", "telephone", "tollFree", "siteUrl"]
  const RESPONSE_KEYS: seq<string> := ["company_name", "address1", "address2", "telephone", "toll_free", "site_url"]

  /** Every text field of a loaded record is the response's value, or ""
      where that is missing or empty; no new logo is chosen; the preview
      changes only for a stored logo. */
  lemma LoadedMeaning(ed: Editor, data: Value, i: nat)
    requires i < |TEXT_FIELDS|
    ensures Truthy(data) ==>
              Get(Loaded(ed, data).record, TEXT_FIELDS[i]) ==
                (if Truthy(Prop(data, RESPONSE_KEYS[i])) then Prop(data, RESPONSE_KEYS[i]) else Str("")) &&
              Get(Loaded(ed, data).record, "logo") == Null
    ensures Truthy(data) && !Truthy(Prop(data, "logo_url")) ==> Loaded(ed, data).preview == ed.preview
    ensures !Truthy(data) ==> Loaded(ed, data) == ed
  {
    if Truthy(data) {
      ResponseField(data, i);
    }
  }

  /** The loaded record's `i`-th text field is the response's matching key,
      or "". */
  lemma ResponseField(data: Value, i: nat)
    requires i < |TEXT_FIELDS|
    ensures Get(FromResponse(data), TEXT_FIELDS[i]) == OrEmpty(Prop(data, RESPONSE_KEYS[i]))
  {
    var r := FromResponse(data);
    if i == 0 {
      assert r["companyName"] == OrEmpty(Prop(data, "company_name"));
    } else if i == 1 {
      assert r["address1"] == OrEmpty(Prop(data, "address1"));
    } else if i == 2 {
      assert r["address2"] == OrEmpty(Prop(data, "address2"));
    } else if i == 3 {
      assert r["telephone"] == OrEmpty(Prop(data, "telephone"));
    } else if i == 4 {
      assert r["tollFree"] == OrEmpty(Prop(data, "toll_free"));
    } else {
      assert r["siteUrl"] == OrEmpty(Prop(data, "site_url"));
    }
  }

  function LogoPart(s: Obj): Payload {
    if Truthy(Get(s, "logo")) then [Part("logo", Plain(Get(s, "logo")))] else []
  }

  function TextParts(s: Obj): Payload {
    [Part("address1", Plain(Get(s, "address1"))),
     Part("address2", Plain(Get(s, "address2"))),
     Part("telephone", Plain(Get(s, "telephone"))),
     Part("toll_free", Plain(Get(s, "tollFree"))),
     Part("site_url", Plain(Get(s, "siteUrl")))]
  }

  /** What `handleSubmit` posts: the name, the logo when chosen, the rest. */
  function SubmitPayload(s: Obj): Payload {
    [Part("company_name", Plain(Get(s, "companyName")))] + LogoPart(s) + TextParts(s)
  }

  /** None for the "Company name is required!" refusal. */
  function Submit(s: Obj): Option<Payload> {
    if !Truthy(Get(s, "companyName")) then None else Some(SubmitPayload(s))
  }

  /** `handleSubmit`'s check and appends. */
  method BuildSubmit(s: Obj) returns (r: Option<Payload>)
    ensures r == Submit(s)
  {
    if !Truthy(Get(s, "companyName")) {
      return None;
    }
    var payload := [Part("company_name", Plain(Get(s, "companyName")))];
    if Truthy(Get(s, "logo")) {
      payload := payload + [Part("logo", Plain(Get(s, "logo")))];
    } else {
      assert payload + [] == payload;
    }
    var text := AppendText(s);
    payload := payload + text;
    return Some(payload);
  }

  method AppendText(s: Obj) returns (r: Payload)
    ensures r == TextParts(s)
  {
    r := [Part("address1", Plain(Get(s, "address1")))];
    r := r + [Part("address2", Plain(Get(s, "address2")))];
    r := r + [Part("telephone", Plain(Get(s, "telephone")))];
    r := r + [Part("toll_free", Plain(Get(s, "tollFree")))];
    r := r + [Part("site_url", Plain(Get(s, "siteUrl")))];
  }

  /** The keys of the text parts, none of them the name's or the logo's. */
  lemma TextKeys(s: Obj)
    ensures Keys(TextParts(s)) == ["address1", "address2", "telephone", "toll_free", "site_url"]
    ensures forall j :: 0 <= j < |TextParts(s)| ==> TextParts(s)[j].key != "logo" && TextParts(s)[j].key != "company_name"
  {
  }

  /** The submission is refused exactly when the company name is empty;
      otherwise the name and the logo, when chosen, are read back. */
  lemma SubmitMeaning(s: Obj)
    ensures Submit(s).None? <==> !Truthy(Get(s, "companyName"))
    ensures PartFor(SubmitPayload(s), "company_name") == Some(Plain(Get(s, "companyName")))
    ensures PartFor(SubmitPayload(s), "logo") == if Truthy(Get(s, "logo")) then Some(Plain(Get(s, "logo"))) else None
  {
    var head := [Part("company_name", Plain(Get(s, "companyName")))];
    assert SubmitPayload(s) == head + (LogoPart(s) + TextParts(s));
    PartForSkip(head, LogoPart(s) + TextParts(s), "logo");
    TextKeys(s);
    if Truthy(Get(s, "logo")) {
      PartForPrefix(LogoPart(s), TextParts(s), "logo");
    } else {
      assert LogoPart(s) + TextParts(s) == TextParts(s);
    }
  }

  /** The address and telephone fields are always sent, each with its
      value. */
  lemma AddressSent(s: Obj)
    ensures PartFor(SubmitPayload(s), "address1") == Some(Plain(Get(s, "address1")))
    ensures PartFor(SubmitPayload(s), "address2") == Some(Plain(Get(s, "address2")))
    ensures PartFor(SubmitPayload(s), "telephone") == Some(Plain(Get(s, "telephone")))
  {
    var t := TextParts(s);
    assert t[1].key == "address2" && t[2].key == "telephone";
    PartForAt(t, 1);
    PartForAt(t, 2);
    SkipFront(s, "address1");
    SkipFront(s, "address2");
    SkipFront(s, "telephone");
  }

  /** The toll-free number and the site address are always sent, each with
      its value. */
  lemma ContactSent(s: Obj)
    ensures PartFor(SubmitPayload(s), "toll_free") == Some(Plain(Get(s, "tollFree")))
    ensures PartFor(SubmitPayload(s), "site_url") == Some(Plain(Get(s, "siteUrl")))
  {
    var t := TextParts(s);
    assert t[3].key == "toll_free" && t[4].key == "site_url";
    PartForAt(t, 3);
    PartForAt(t, 4);
    SkipFront(s, "toll_free");
    SkipFront(s, "site_url");
  }

  /** Under a key other than the name's and the logo's, the submission reads
      as the text parts. */
  lemma SkipFront(s: Obj, k: string)
    requires k != "company_name" && k != "logo"
    ensures PartFor(SubmitPayload(s), k) == PartFor(TextParts(s), k)
  {
    var front := [Part("company_name", Plain(Get(s, "companyName")))] + LogoPart(s);
    assert forall j :: 0 <= j < |front| ==> front[j].key == "company_name" || front[j].key == "logo";
    PartForSkip(front, TextParts(s), k);
  }

  /** Right after loading nothing is sent for the logo, and the page can be
      saved exactly when the stored company name is non-empty; after the
      logo is removed it is not sent either. */
  lemma LoadThenSubmit(ed: Editor, data: Value)
    requires Truthy(data)
    ensures PartFor(SubmitPayload(Loaded(ed, data).record), "logo") == None
    ensures Submit(Loaded(ed, data).record).Some? <==> Truthy(Prop(data, "company_name"))
    ensures PartFor(SubmitPayload(RemoveImage(ed, "logo").record), "logo") == None
  {
    LoadedMeaning(ed, data, 0);
    SubmitMeaning(Loaded(ed, data).record);
    SubmitMeaning(RemoveImage(ed, "logo").record);
  }
}
