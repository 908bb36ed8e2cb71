/** app/api/contact/route.ts: the contact form's endpoint, which only validates the
    payload against its schema. */
module ContactRoute {
  import opened Wrappers
  import opened Strings
  import opened JsValues

  /** The payload once the schema accepts it; keys outside the schema are dropped. */
  datatype ContactData = ContactData(name: string, phone: string, message: string, locale: Option<string>)

  /** `z.string().min(lo).max(hi)` on one field. */
  predicate StringWithin(v: JsValue, lo: nat, hi: nat) {
    v.JStr? && lo <= Utf16Length(v.s) <= hi
  }

  /** `schema.parse(json)`: an object whose name has 2 to 80 code units, phone 6 to 30,
      message 5 to 1200 (untrimmed), and whose locale is absent or a string. */
  function Parse(json: JsValue): (r: Option<ContactData>)
    ensures r.Some? <==>
      && json.JObj?
      && StringWithin(Get(json, "name"), 2, 80)
      && StringWithin(Get(json, "phone"), 6, 30)
      && StringWithin(Get(json, "message"), 5, 1200)
      && (Get(json, "locale").JUndefined? || Get(json, "locale").JStr?)
    ensures r.Some? ==> r.value.name == Get(json, "name").s && r.value.phone == Get(json, "phone").s
                        && r.value.message == Get(json, "message").s
    ensures r.Some? ==> (r.value.locale.Some? <==> Get(json, "locale").JStr?)
  {
    var name := Get(json, "name");
    var phone := Get(json, "phone");
    var message := Get(json, "message");
    var locale := Get(json, "locale");
    if !json.JObj? then None
    else if !StringWithin(name, 2, 80) then None
    else if !StringWithin(phone, 6, 30) then None
    else if !StringWithin(message, 5, 1200) then None
    else if locale.JUndefined? then Some(ContactData(name.s, phone.s, message.s, None))
    else if locale.JStr? then Some(ContactData(name.s, phone.s, message.s, Some(locale.s)))
    else None
  }

  /** `{ ok: true }`, or status 400 with `{ ok: false, error: 'Invalid payload' }`. */
  datatype ContactReply = ContactOk | ContactInvalid

  /** `POST(req)`; `json` is `None` when the body is not JSON. */
  function Post(json: Option<JsValue>): (r: ContactReply)
    ensures r == ContactOk <==> json.Some? && Parse(json.value).Some?
  {
    if json.None? then ContactInvalid
    else if Parse(json.value).None? then ContactInvalid
    else ContactOk
  }

  /** Lengths are taken before any trimming: a name of two spaces is accepted. */
  lemma UntrimmedNameAccepted()
    ensures Post(Some(JObj(map["name" := JStr("  "), "phone" := JStr("555123"),
                               "message" := JStr("Hello")]))) == ContactOk
  {
    assert Utf16Length("  ") == 2;
    assert Utf16Length("555123") == 6;
    assert Utf16Length("Hello") == 5;
  }

  /** One character outside the Basic Multilingual Plane is already long enough for a
      name. */
  lemma AstralNameLength()
    ensures StringWithin(JStr("\U{1F600}"), 2, 80)
  {
    assert Utf16Length("\U{1F600}") == 2;
  }

  /** A null locale is refused: `optional()` allows only a missing one. */
  lemma NullLocaleRefused(name: string, phone: string, message: string)
    ensures Post(Some(JObj(map["name" := JStr(name), "phone" := JStr(phone),
                               "message" := JStr(message), "locale" := JNull]))) == ContactInvalid
  {
  }
}
