/** components/LanguageToggle.tsx: switching the page to the other locale — the path to
    navigate to and the `lang` cookie written before navigating. */
module LanguageToggle {
  import opened Strings
  import opened I18n
  import opened Cookies

  /** `pathname === '/{locale}' || pathname.startsWith('/{locale}/')`. */
  predicate IsLocalized(pathname: string, locale: Locale) {
    pathname == "/" + Code(locale) || StartsWith(pathname, "/" + Code(locale) + "/")
  }

  /** `nextPath`: a localized path gets its leading `/{locale}` replaced by `/{other}`;
      `/` becomes `/{other}`; any other path is prefixed with `/{other}`. */
  function NextPath(pathname: string, locale: Locale): (r: string)
    ensures IsLocalized(pathname, locale) ==> r == "/" + Code(Other(locale)) + pathname[3..]
    ensures !IsLocalized(pathname, locale) && pathname == "/" ==> r == "/" + Code(Other(locale))
    ensures !IsLocalized(pathname, locale) && pathname != "/" ==> r == "/" + Code(Other(locale)) + pathname
  {
    var other := Other(locale);
    if IsLocalized(pathname, locale) then
      ReplaceFirstAtStart(pathname, "/" + Code(locale), "/" + Code(other));
      ReplaceFirst(pathname, "/" + Code(locale), "/" + Code(other))
    else "/" + Code(other) + (if pathname == "/" then "" else pathname)
  }

  /** Toggling twice from a localized path comes back to it. */
  lemma ToggleTwice(pathname: string, locale: Locale)
    requires IsLocalized(pathname, locale)
    ensures IsLocalized(NextPath(pathname, locale), Other(locale))
    ensures NextPath(NextPath(pathname, locale), Other(locale)) == pathname
  {
    var code := Code(locale);
    var p := NextPath(pathname, locale);
    var o := Code(Other(locale));
    assert p == "/" + o + pathname[3..];
    if pathname != "/" + code {
      assert StartsWith(p, "/" + o + "/") by {
        assert pathname[3] == '/';
        assert p[..4] == "/" + o + "/";
      }
    }
    assert p[3..] == pathname[3..];
    assert Other(Other(locale)) == locale;
    assert pathname == "/" + code + pathname[3..];
  }

  /** `/english` under `en` is not localized, so it is prefixed: `/ar/english`. */
  lemma PrefixedExample()
    ensures NextPath("/english", En) == "/ar/english"
  {
    assert "/english"[..4][3] != "/en/"[3];
    assert "/english" != "/en";
  }

  /** `switchLang()`: writes the `lang` cookie for the other locale, then returns the path
      the router is pushed to. */
  method SwitchLang(jar: CookieJar, pathname: string, locale: Locale) returns (nextPath: string)
    modifies jar
    ensures jar.cookies == old(jar.cookies)[LangCookieName := LangCookie(Code(Other(locale)))]
    ensures nextPath == NextPath(pathname, locale)
  {
    var other := Other(locale);
    jar.Set(LangCookieName, LangCookie(Code(other)));
    nextPath := NextPath(pathname, locale);
  }
}
