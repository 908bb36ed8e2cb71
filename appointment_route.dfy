/** app/api/appointment/route.ts: booking requests from the site (POST) and the dashboard's
    list (GET) and status change (PATCH). */
module AppointmentRoute {
  import opened Wrappers
  import opened Strings
  import opened JsValues
  import opened I18n
  import opened FormInput
  import opened Appointments
  import opened DashboardAuth

  /** The fields of a request, as read from the body: trimmed, the e-mail lower-cased. */
  datatype Submission = Submission(name: string, phone: string, email: string, condition: string,
                                   preferred: string, locale: Locale)

  /** The outcome of the checks before anything is stored. */
  datatype Check = Invalid(error: string) | Trap | Valid(sub: Submission)

  /** What POST answers: an error status with its message, or success — with the
      `emailNotified` flag when a request was stored. */
  datatype PostReply = PostFailure(status: int, error: Option<string>) | PostSuccess(emailNotified: Option<bool>)

  /** What GET answers. */
  datatype ListReply = Unauthorized | Listed(items: seq<AppointmentRequest>)

  /** The server's settings the notification e-mail depends on. */
  datatype MailEnv = MailEnv(resendApiKey: Option<string>, appointmentNotificationEmail: Option<string>,
                             leadNotificationEmail: Option<string>)

  function ReadSubmission(body: JsValue): (s: Submission)
    ensures s.name == Field(body, "name") && s.phone == Field(body, "phone")
    ensures s.email == ToLower(Field(body, "email"))
    ensures s.condition == Field(body, "condition") && s.preferred == Field(body, "preferred")
    ensures s.locale == Ar <==> Get(body, "locale") == JStr("ar")
  {
    Submission(Field(body, "name"), Field(body, "phone"), ToLower(Field(body, "email")),
               Field(body, "condition"), Field(body, "preferred"),
               if Get(body, "locale") == JStr("ar") then Ar else En)
  }

  /** The early returns of POST, in order: unparsable or falsy body, honeypot, name,
      phone, e-mail (only when given), preferred time. */
  function CheckAppointment(body: Option<JsValue>): (c: Check)
    ensures c == Invalid("Invalid JSON") <==> body.None? || !Truthy(body.value)
    ensures c.Trap? <==> body.Some? && Truthy(body.value) && Honeypot(body.value)
    ensures c == Invalid("Name required") <==>
      Considered(body) && Utf16Length(ReadSubmission(body.value).name) < 2
    ensures c == Invalid("Phone required") <==>
      Considered(body) && Utf16Length(ReadSubmission(body.value).name) >= 2 && Utf16Length(ReadSubmission(body.value).phone) < 8
    ensures c == Invalid("Valid email required") <==>
      Considered(body) && Utf16Length(ReadSubmission(body.value).name) >= 2 && Utf16Length(ReadSubmission(body.value).phone) >= 8
      && ReadSubmission(body.value).email != "" && !IsValidEmail(ReadSubmission(body.value).email)
    ensures c == Invalid("Preferred time required") <==>
      Considered(body) && Utf16Length(ReadSubmission(body.value).name) >= 2 && Utf16Length(ReadSubmission(body.value).phone) >= 8
      && (ReadSubmission(body.value).email == "" || IsValidEmail(ReadSubmission(body.value).email))
      && ReadSubmission(body.value).preferred == ""
    ensures c.Valid? ==> Considered(body) && c.sub == ReadSubmission(body.value)
    ensures c.Valid? ==> Utf16Length(c.sub.name) >= 2 && Utf16Length(c.sub.phone) >= 8 && c.sub.preferred != ""
                         && (c.sub.email == "" || IsValidEmail(c.sub.email))
  {
    if body.None? || !Truthy(body.value) then Invalid("Invalid JSON")
    else if Honeypot(body.value) then Trap
    else
      var s := ReadSubmission(body.value);
      if Utf16Length(s.name) < 2 then Invalid("Name required")
      else if Utf16Length(s.phone) < 8 then Invalid("Phone required")
      else if s.email != "" && !IsValidEmail(s.email) then Invalid("Valid email required")
      else if s.preferred == "" then Invalid("Preferred time required")
      else Valid(s)
  }

  /** The request stored for an accepted submission. */
  function Record(s: Submission, id: string, createdAt: string): (a: AppointmentRequest)
    ensures a.status == New && a.locale == Some(s.locale)
    ensures a.email.None? <==> s.email == ""
    ensures a.email.Some? ==> a.email.value == s.email
    ensures a.id == id && a.createdAt == createdAt && a.name == s.name && a.phone == s.phone
    ensures a.condition == s.condition && a.preferred == s.preferred
  {
    AppointmentRequest(id, createdAt, s.name, s.phone, if s.email == "" then None else Some(s.email),
                       s.condition, s.preferred, New, Some(s.locale))
  }

  /** `a || b` on optional settings. */
  function Either(a: Option<string>, b: Option<string>): (r: Option<string>)
    ensures a.Some? && a.value != "" ==> r == a
    ensures !(a.Some? && a.value != "") ==> r == b
  {
    if a.Some? && a.value != "" then a else b
  }

  /** An e-mail is attempted only with both an API key and an address to notify; the
      appointment address falls back to the lead address. */
  predicate MailConfigured(env: MailEnv)
    ensures MailConfigured(env) <==>
      (env.resendApiKey.GetOr("") != ""
       && (env.appointmentNotificationEmail.GetOr("") != "" || env.leadNotificationEmail.GetOr("") != ""))
  {
    var notifyTo := Either(env.appointmentNotificationEmail, env.leadNotificationEmail);
    env.resendApiKey.Some? && env.resendApiKey.value != "" && notifyTo.Some? && notifyTo.value != ""
  }

  const SubjectPrefix := "Appointment Request" + SubjectSeparator

  /** The notification's subject: the condition, or "General" when none was given. */
  function AppointmentSubject(condition: string): (r: string)
    ensures StartsWith(r, SubjectPrefix)
    ensures condition != "" ==> r[|SubjectPrefix|..] == condition
    ensures condition == "" ==> r[|SubjectPrefix|..] == "General"
  {
    var r := SubjectPrefix + (if condition == "" then "General" else condition);
    assert r[..|SubjectPrefix|] == SubjectPrefix;
    r
  }

  /** `POST(req)`.  `body` is `None` when the body is not JSON; `id` and `createdAt` are
      the fresh id and timestamp; `sendSucceeds` is whether the send call returns
      without throwing (the `{ error }` it may return is not read). */
  method Post(store: AppointmentStore, body: Option<JsValue>, id: string, createdAt: string,
              env: MailEnv, sendSucceeds: bool) returns (reply: PostReply)
    modifies store
    ensures CheckAppointment(body).Invalid? ==>
      reply == PostFailure(400, Some(CheckAppointment(body).error)) && store.items == old(store.items)
    ensures CheckAppointment(body).Trap? ==> reply == PostSuccess(None) && store.items == old(store.items)
    ensures CheckAppointment(body).Valid? ==>
      store.items == Some(Added(old(store.ListAppointments()), Record(CheckAppointment(body).sub, id, createdAt)))
      && reply == PostSuccess(Some(MailConfigured(env) && sendSucceeds))
  {
    if body.None? || !Truthy(body.value) {
      return PostFailure(400, Some("Invalid JSON"));
    }
    var b := body.value;
    if Honeypot(b) {
      return PostSuccess(None);
    }
    var s := ReadSubmission(b);
    if Utf16Length(s.name) < 2 {
      return PostFailure(400, Some("Name required"));
    }
    if Utf16Length(s.phone) < 8 {
      return PostFailure(400, Some("Phone required"));
    }
    if s.email != "" && !IsValidEmail(s.email) {
      return PostFailure(400, Some("Valid email required"));
    }
    if s.preferred == "" {
      return PostFailure(400, Some("Preferred time required"));
    }
    var a := Record(s, id, createdAt);
    store.AddAppointment(a);
    var emailNotified := false;
    if MailConfigured(env) {
      emailNotified := sendSucceeds;
    }
    return PostSuccess(Some(emailNotified));
  }

  /** `GET()`: the stored list, for an authenticated dashboard only. */
  method List(store: AppointmentStore, dashCookie: Option<string>) returns (reply: ListReply)
    ensures !IsDashboardAuthed(dashCookie) ==> reply == Unauthorized
    ensures IsDashboardAuthed(dashCookie) ==> reply == Listed(store.ListAppointments())
  {
    if !IsDashboardAuthed(dashCookie) {
      return Unauthorized;
    }
    return Listed(store.ListAppointments());
  }

  /** The id and status a PATCH body names: `String(body?.id ?? '')` and
      `String(body?.status ?? '')`, untrimmed.  Accepted only with a non-empty id and one
      of the four statuses. */
  function CheckPatch(body: Option<JsValue>): (r: Option<(string, Status)>)
    ensures var v := body.GetOr(JNull);
            r.Some? <==> TextOr(Get(v, "id")) != "" && TextOr(Get(v, "status")) in AllowedStatusNames
    ensures var v := body.GetOr(JNull);
            r.Some? ==> r.value.0 == TextOr(Get(v, "id")) && r.value.1.Name() == TextOr(Get(v, "status"))
  {
    var v := body.GetOr(JNull);
    var id := TextOr(Get(v, "id"));
    var status := ParseStatus(TextOr(Get(v, "status")));
    if id == "" || status.None? then None else Some((id, status.value))
  }

  /** `PATCH(req)`, answering with an HTTP status: 401 without the dashboard cookie, 400
      for a bad id or status, otherwise the status is changed. */
  method Patch(store: AppointmentStore, dashCookie: Option<string>, body: Option<JsValue>) returns (status: int)
    modifies store
    ensures !IsDashboardAuthed(dashCookie) ==> status == 401 && store.items == old(store.items)
    ensures IsDashboardAuthed(dashCookie) && CheckPatch(body).None? ==> status == 400 && store.items == old(store.items)
    ensures IsDashboardAuthed(dashCookie) && CheckPatch(body).Some? ==>
      status == 200 && store.items == Some(WithStatus(old(store.ListAppointments()),
                                                      CheckPatch(body).value.0, CheckPatch(body).value.1))
  {
    if !IsDashboardAuthed(dashCookie) {
      return 401;
    }
    var v := body.GetOr(JNull);
    var id := TextOr(Get(v, "id"));
    var st := ParseStatus(TextOr(Get(v, "status")));
    if id == "" || st.None? {
      return 400;
    }
    store.UpdateAppointmentStatus(id, st.value);
    return 200;
  }
}
