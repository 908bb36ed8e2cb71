/** proxy.ts: the edge routing step.  Internal, API and file paths and already-localized
    paths pass through; every other path is redirected under `/{locale}` with the `lang`
    cookie set to the detected locale. */
module Proxy {
  import opened Wrappers
  import opened Strings
  import opened I18n
  import opened Cookies
  import RootPage

  /** `NextResponse.next()` or a redirect to a new pathname carrying the `lang` cookie. */
  datatype Decision = PassThrough | Redirect(pathname: string, langCookie: Cookie)

  /** `detectLocale(req)`: the same choice as the site root makes — a valid `lang` cookie,
      else the first supported tag of `accept-language` by list position, else `en` —
      computed with the source's first-match loop. */
  method DetectLocale(cookie: Option<string>, acceptLanguage: Option<string>) returns (l: Locale)
    ensures l == RootPage.RootLocale(cookie, acceptLanguage)
  {
    if cookie.Some? && cookie.value != "" && IsLocale(cookie.value) {
      return ParseLocale(cookie.value).value;
    }
    if acceptLanguage.Some? && acceptLanguage.value != "" {
      var preferred := RootPage.PreferredTags(acceptLanguage.value);
      var i := 0;
      while i < |preferred|
        invariant 0 <= i <= |preferred|
        invariant RootPage.FirstSupported(preferred) == RootPage.FirstSupported(preferred[i..])
      {
        var base := Split(preferred[i], '-')[0];
        RootPage.FirstSupportedFrom(preferred, i);
        if base != "" && IsLocale(base) {
          return ParseLocale(base).value;
        }
        i := i + 1;
      }
    }
    return DefaultLocale;
  }

  /** Paths the proxy never touches: Next.js internals, the API and anything with a dot. */
  predicate Skipped(pathname: string) {
    StartsWith(pathname, "/_next") || StartsWith(pathname, "/api") || '.' in pathname
  }

  /** `segments[0]` of `pathname.split('/').filter(Boolean)`: the first non-empty piece. */
  function FirstNonEmpty(pieces: seq<string>): (r: Option<string>)
    ensures r.Some? ==> r.value != "" && r.value in pieces
    ensures r.None? ==> forall k :: 0 <= k < |pieces| ==> pieces[k] == ""
  {
    if pieces == [] then None
    else if pieces[0] != "" then Some(pieces[0])
    else FirstNonEmpty(pieces[1..])
  }

  function FirstSegment(pathname: string): Option<string> {
    FirstNonEmpty(Split(pathname, '/'))
  }

  /** The proxy's decision once the locale is known. */
  function Route(pathname: string, locale: Locale): (d: Decision)
    ensures Skipped(pathname) ==> d == PassThrough
    ensures !Skipped(pathname) && FirstSegment(pathname).Some? && IsLocale(FirstSegment(pathname).value)
            ==> d == PassThrough
    ensures d.Redirect? ==> d.langCookie == LangCookie(Code(locale))
    ensures d.Redirect? && pathname == "/" ==> d.pathname == "/" + Code(locale)
    ensures d.Redirect? && pathname != "/" ==> d.pathname == "/" + Code(locale) + pathname
  {
    if Skipped(pathname) then PassThrough
    else
      var first := FirstSegment(pathname);
      if first.Some? && IsLocale(first.value) then PassThrough
      else if pathname == "/" then Redirect("/" + Code(locale), LangCookie(Code(locale)))
      else Redirect("/" + Code(locale) + pathname, LangCookie(Code(locale)))
  }

  /** `proxy(req)`. */
  method Proxy(pathname: string, cookie: Option<string>, acceptLanguage: Option<string>)
    returns (d: Decision)
    ensures d == Route(pathname, RootPage.RootLocale(cookie, acceptLanguage))
    ensures d.Redirect? ==> d.langCookie.path == "/" && d.langCookie.maxAge == 31536000
                            && IsLocale(d.langCookie.value)
  {
    if StartsWith(pathname, "/_next") || StartsWith(pathname, "/api") || '.' in pathname {
      return PassThrough;
    }
    var segments := Split(pathname, '/');
    var first := FirstNonEmpty(segments);
    if first.Some? && IsLocale(first.value) {
      return PassThrough;
    }
    var locale := DetectLocale(cookie, acceptLanguage);
    CodeRoundTrip(locale);
    if pathname == "/" {
      return Redirect("/" + Code(locale), LangCookie(Code(locale)));
    }
    return Redirect("/" + Code(locale) + pathname, LangCookie(Code(locale)));
  }

  /** The first segment of `/{code}{rest}` is the code when `rest` is empty or a path. */
  lemma LocalizedFirstSegment(code: string, rest: string)
    requires code != "" && '/' !in code
    requires rest == [] || rest[0] == '/'
    ensures FirstSegment("/" + code + rest) == Some(code)
  {
    var s := "/" + code + rest;
    assert s == [] + ['/'] + (code + rest);
    SplitAtFirst([], code + rest, '/');
    var pieces := Split(code + rest, '/');
    SplitFirstIsBefore(code + rest, '/');
    BeforeAppend(code, rest, '/');
    assert pieces[0] == code;
    assert FirstNonEmpty(pieces) == Some(code);
    assert Split(s, '/') == [""] + pieces;
    assert ([""] + pieces)[1..] == pieces;
  }

  /** Routing is idempotent: a redirect target passes through the proxy, whatever locale
      the second request would detect. */
  lemma RedirectTargetPassesThrough(pathname: string, locale: Locale, again: Locale)
    requires StartsWith(pathname, "/")
    ensures Route(pathname, locale).Redirect? ==>
      Route(Route(pathname, locale).pathname, again) == PassThrough
  {
    var d := Route(pathname, locale);
    if d.Redirect? {
      var code := Code(locale);
      var rest := if pathname == "/" then "" else pathname;
      assert d.pathname == "/" + code + rest;
      LocalizedFirstSegment(code, rest);
      CodeRoundTrip(locale);
    }
  }
}
