/** lib/dashboardAuth.ts: the dashboard's session cookie and its password check. */
module DashboardAuth {
  import opened Wrappers
  import opened Utf8

  /** `COOKIE_NAME`, which `cookieName()` returns. */
  const DashCookie := "dash_auth"

  /** The name the login route sets and `isDashboardAuthed` reads. */
  function CookieName(): (r: string)
    ensures r == "dash_auth"
  {
    DashCookie
  }

  /** `isDashboardAuthed()`, given the value of the request's `dash_auth` cookie (`None`
      when there is none): only the exact value "1" opens the dashboard. */
  function IsDashboardAuthed(cookie: Option<string>): (r: bool)
    ensures r <==> cookie.Some? && cookie.value == "1"
  {
    cookie == Some("1")
  }

  /** `verifyPassword(input)` with `DASHBOARD_PASSWORD` as `expectedEnv`; a null or
      undefined input is `None` and counts as ''. */
  function VerifyPassword(input: Option<string>, expectedEnv: Option<string>): (r: bool)
    ensures expectedEnv.GetOr("") == "" ==> !r
    ensures |Encode(input.GetOr(""))| != |Encode(expectedEnv.GetOr(""))| ==> !r
    ensures r ==> Encode(input.GetOr("")) == Encode(expectedEnv.GetOr(""))
  {
    var expected := expectedEnv.GetOr("");
    var a := Encode(input.GetOr(""));
    var b := Encode(expected);
    if expected == "" then false
    else if |a| != |b| then false
    else a == b
  }

  /** The password is accepted exactly when one is configured and the input equals it;
      with none configured even the empty input is refused. */
  lemma VerifyPasswordIff(input: Option<string>, expectedEnv: Option<string>)
    ensures VerifyPassword(input, expectedEnv) <==>
      expectedEnv.Some? && expectedEnv.value != "" && input.GetOr("") == expectedEnv.value
  {
    if VerifyPassword(input, expectedEnv) {
      EncodeInjective(input.GetOr(""), expectedEnv.GetOr(""));
    }
  }
}
