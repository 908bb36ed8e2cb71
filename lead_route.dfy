/** app/api/lead/route.ts: a visitor asks for their insight summary by e-mail; the clinic
    is notified. */
module LeadRoute {
  import opened Wrappers
  import opened Strings
  import opened JsValues
  import opened FormInput
  import Utf8
  import AppointmentRoute

  /** The fields of a lead, as read from the body: trimmed, the e-mail lower-cased. */
  datatype Lead = Lead(name: string, email: string, phone: string, condition: string, level: string)

  datatype LeadCheck = LeadInvalid(error: string) | LeadTrap | LeadValid(lead: Lead)

  /** What POST answers. */
  datatype LeadReply = LeadFailure(status: int, error: Option<string>) | LeadSuccess

  /** The notification the clinic is sent; each field as it appears in the HTML body. */
  datatype LeadEmail = LeadEmail(to: string, subject: string, name: string, email: string, phone: string,
                                 condition: string, level: string)

  /** The reply, and the e-mail handed to the mail service, if any. */
  datatype LeadOutcome = LeadOutcome(reply: LeadReply, sent: Option<LeadEmail>)

  function ReadLead(body: JsValue): (l: Lead)
    ensures l.name == Field(body, "name") && l.email == ToLower(Field(body, "email"))
    ensures l.phone == Field(body, "phone") && l.condition == Field(body, "condition")
    ensures l.level == Field(body, "level")
  {
    Lead(Field(body, "name"), ToLower(Field(body, "email")), Field(body, "phone"),
         Field(body, "condition"), Field(body, "level"))
  }

  /** The early returns before the configuration check, in order: unparsable or falsy
      body, honeypot, name, e-mail (required here). */
  function CheckLead(body: Option<JsValue>): (c: LeadCheck)
    ensures c == LeadInvalid("Invalid JSON") <==> body.None? || !Truthy(body.value)
    ensures c.LeadTrap? <==> body.Some? && Truthy(body.value) && Honeypot(body.value)
    ensures c == LeadInvalid("Name required") <==>
      Considered(body) && Utf16Length(ReadLead(body.value).name) < 2
    ensures c == LeadInvalid("Valid email required") <==>
      Considered(body) && Utf16Length(ReadLead(body.value).name) >= 2
      && !IsValidEmail(ReadLead(body.value).email)
    ensures c.LeadValid? ==> Considered(body) && c.lead == ReadLead(body.value)
                             && Utf16Length(c.lead.name) >= 2 && IsValidEmail(c.lead.email)
  {
    if body.None? || !Truthy(body.value) then LeadInvalid("Invalid JSON")
    else if Honeypot(body.value) then LeadTrap
    else
      var l := ReadLead(body.value);
      if Utf16Length(l.name) < 2 then LeadInvalid("Name required")
      else if l.email == "" || !IsValidEmail(l.email) then LeadInvalid("Valid email required")
      else LeadValid(l)
  }

  /** The empty string is not an address, so requiring one adds nothing to the pattern. */
  lemma EmptyEmailInvalid()
    ensures !IsValidEmail("")
  {
  }

  // ----- The subject line -----

  const SubjectHead := "New Insight Lead"

  /** The topic named in the subject: the condition, or "Clinical Summary". */
  function Topic(condition: string): (r: string)
    ensures r != ""
    ensures condition != "" ==> r == condition
  {
    if condition == "" then "Clinical Summary" else condition
  }

  /** The three characters between the head and the topic in the source file: 'â', '€'
      and '”'. */
  const GarbledDash := "\U{00E2}\U{20AC}\U{201D}"

  /** The subject as the source writes it: between the head and the topic stand the em
      dash's UTF-8 bytes, each read back as a Windows-1252 character. */
  function LeadSubjectAsWritten(condition: string): (r: string)
    ensures r == SubjectHead + " " + Windows1252All(Utf8.EncodeChar('\U{2014}')) + " " + Topic(condition)
  {
    EmDashBytes();
    var w := Windows1252All([0xE2, 0x80, 0x94]);
    assert w[0] == '\U{00E2}' && w[1] == '\U{20AC}' && w[2] == '\U{201D}';
    assert w == GarbledDash;
    SubjectHead + " " + GarbledDash + " " + Topic(condition)
  }

  /** The characters Windows-1252 gives the bytes 0x80 to 0x9F; the five bytes it leaves
      undefined stand for themselves. */
  const Windows1252High: seq<int> := [
    0x20AC, 0x81, 0x201A, 0x0192, 0x201E, 0x2026, 0x2020, 0x2021,
    0x02C6, 0x2030, 0x0160, 0x2039, 0x0152, 0x8D, 0x017D, 0x8F,
    0x90, 0x2018, 0x2019, 0x201C, 0x201D, 0x2022, 0x2013, 0x2014,
    0x02DC, 0x2122, 0x0161, 0x203A, 0x0153, 0x9D, 0x017E, 0x0178]

  /** Reading one byte as Windows-1252. */
  function Windows1252(b: int): (c: char)
    requires Utf8.IsByte(b)
  {
    if 0x80 <= b < 0xA0 then Windows1252High[b - 0x80] as char else b as char
  }

  function Windows1252All(bs: seq<int>): (r: string)
    requires forall k :: 0 <= k < |bs| ==> Utf8.IsByte(bs[k])
    ensures |r| == |bs|
  {
    if bs == [] then "" else [Windows1252(bs[0])] + Windows1252All(bs[1..])
  }

  lemma EmDashBytes()
    ensures Utf8.EncodeChar('\U{2014}') == [0xE2, 0x80, 0x94]
  {
  }

  /** As written, the subject carries no em dash, so it differs from the corrected
      subject. */
  lemma SubjectMojibake(condition: string)
    ensures '\U{2014}' !in GarbledDash
    ensures LeadSubjectAsWritten(condition) != LeadSubject(condition)
  {
    var k := |SubjectHead| + 2;
    assert LeadSubjectAsWritten(condition)[k] == '\U{20AC}';
    assert LeadSubject(condition)[k] == ' ';
  }

  /** The subject with the em dash the text was evidently typed with. */
  function LeadSubject(condition: string): string {
    SubjectHead + SubjectSeparator + Topic(condition)
  }

  /** Corrected, the lead subject has an em dash right after its head, as the appointment
      route's subject does. */
  lemma SubjectSeparatorMatches(condition: string, other: string)
    ensures LeadSubject(condition)[|SubjectHead| + 1] == '\U{2014}'
    ensures AppointmentRoute.AppointmentSubject(other)[|"Appointment Request"| + 1] == '\U{2014}'
  {
  }

  // ----- POST -----

  /** The notification for a valid lead: every field escaped, a missing phone shown as
      'Not provided'. */
  function LeadMail(l: Lead, notifyTo: string): (m: LeadEmail)
    ensures m.to == notifyTo && m.subject == LeadSubject(l.condition)
    ensures m.name == Safe(l.name) && m.email == Safe(l.email)
    ensures l.phone == "" ==> m.phone == "Not provided"
    ensures l.phone != "" ==> m.phone == Safe(l.phone)
    ensures m.condition == Safe(l.condition) && m.level == Safe(l.level)
  {
    LeadEmail(notifyTo, LeadSubject(l.condition), Safe(l.name), Safe(l.email),
              if l.phone == "" then "Not provided" else Safe(l.phone), Safe(l.condition), Safe(l.level))
  }

  /** `POST(req)`: `apiKey` and `notifyTo` are `RESEND_API_KEY` and
      `LEAD_NOTIFICATION_EMAIL`; `sendSucceeds` is whether the send call returns
      without throwing (a throw lands in the catch-all 500; the `{ error }` it may
      return is not read). */
  function Post(body: Option<JsValue>, apiKey: Option<string>, notifyTo: Option<string>, sendSucceeds: bool)
    : (o: LeadOutcome)
    ensures CheckLead(body).LeadInvalid? ==>
      o == LeadOutcome(LeadFailure(400, Some(CheckLead(body).error)), None)
    ensures CheckLead(body).LeadTrap? ==> o == LeadOutcome(LeadSuccess, None)
    ensures CheckLead(body).LeadValid? && (apiKey.GetOr("") == "" || notifyTo.GetOr("") == "") ==>
      o == LeadOutcome(LeadFailure(500, Some("Server email configuration missing")), None)
    ensures o.sent.Some? ==>
      CheckLead(body).LeadValid? && apiKey.GetOr("") != "" && notifyTo.GetOr("") != ""
      && o.sent.value == LeadMail(CheckLead(body).lead, notifyTo.value)
    ensures CheckLead(body).LeadValid? && apiKey.GetOr("") != "" && notifyTo.GetOr("") != "" ==>
      o.sent == Some(LeadMail(CheckLead(body).lead, notifyTo.value))
      && (sendSucceeds ==> o.reply == LeadSuccess)
      && (!sendSucceeds ==> o.reply == LeadFailure(500, None))
    ensures o.reply == LeadSuccess && o.sent.Some? <==>
      CheckLead(body).LeadValid? && apiKey.GetOr("") != "" && notifyTo.GetOr("") != "" && sendSucceeds
  {
    match CheckLead(body)
    case LeadInvalid(e) => LeadOutcome(LeadFailure(400, Some(e)), None)
    case LeadTrap => LeadOutcome(LeadSuccess, None)
    case LeadValid(l) =>
      if apiKey.GetOr("") == "" || notifyTo.GetOr("") == "" then
        LeadOutcome(LeadFailure(500, Some("Server email configuration missing")), None)
      else
        var m := LeadMail(l, notifyTo.value);
        if sendSucceeds then LeadOutcome(LeadSuccess, Some(m))
        else LeadOutcome(LeadFailure(500, None), Some(m))
  }

  /** No text a visitor typed reaches the e-mail's HTML unescaped. */
  lemma MailFieldsEscaped(l: Lead, notifyTo: string)
    ensures var m := LeadMail(l, notifyTo);
            && '<' !in m.name && '<' !in m.email && '<' !in m.phone && '<' !in m.condition && '<' !in m.level
            && AmpersandsEscaped(m.name) && AmpersandsEscaped(m.phone) && AmpersandsEscaped(m.level)
  {
    SafeOutput(l.name);
    SafeOutput(l.email);
    SafeOutput(l.phone);
    SafeOutput(l.condition);
    SafeOutput(l.level);
    var m := LeadMail(l, notifyTo);
    if l.phone == "" {
      assert forall i :: 0 <= i < |m.phone| ==> m.phone[i] != '&';
    }
  }
}
