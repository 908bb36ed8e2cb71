/** The `lang` cookie the site writes, from the edge proxy and from the language toggle. */
module Cookies {
  import opened Strings

  /** `60 * 60 * 24 * 365`: one year, in seconds. */
  const OneYear: int := 60 * 60 * 24 * 365

  const LangCookieName := "lang"

  /** A cookie's value and the attributes the site sets on it. */
  datatype Cookie = Cookie(value: string, path: string, maxAge: int)

  /** The browser's cookies, by name. */
  class CookieJar {
    var cookies: map<string, Cookie>

    constructor (cookies: map<string, Cookie>)
      ensures this.cookies == cookies
    {
      this.cookies := cookies;
    }

    /** Setting a cookie replaces the one of that name and leaves the others alone. */
    method Set(name: string, c: Cookie)
      modifies this
      ensures cookies == old(cookies)[name := c]
    {
      cookies := cookies[name := c];
    }
  }

  /** The `lang` cookie both writers set: the locale code, site-wide, for a year. */
  function LangCookie(code: string): (c: Cookie)
    ensures c.value == code && c.path == "/" && c.maxAge == 31536000
  {
    Cookie(code, "/", OneYear)
  }
}
