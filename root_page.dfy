/** app/page.tsx: the site root, which redirects to `/{locale}` choosing the locale from the
    `lang` cookie or else from the `Accept-Language` header. */
module RootPage {
  import opened Wrappers
  import opened Strings
  import opened I18n

  /** `part.split(';')[0]?.trim()` for each comma-separated part, empty results dropped. */
  function TagsOf(parts: seq<string>): (r: seq<string>)
    ensures |r| <= |parts|
    ensures forall k :: 0 <= k < |r| ==> r[k] != ""
  {
    if parts == [] then []
    else
      var tag := Trim(Split(parts[0], ';')[0]);
      (if tag != "" then [tag] else []) + TagsOf(parts[1..])
  }

  /** The language tags of a header, in the order listed (q-values are not consulted). */
  function PreferredTags(header: string): (r: seq<string>)
    ensures forall k :: 0 <= k < |r| ==> r[k] != ""
  {
    TagsOf(Split(header, ','))
  }

  /** `lang.split('-')[0]`: the primary subtag. */
  function BaseOf(tag: string): (r: string)
    ensures '-' !in r && StartsWith(tag, r)
  {
    SplitFirstIsBefore(tag, '-');
    Split(tag, '-')[0]
  }

  /** The position of the first tag whose primary subtag is a supported locale; `|tags|`
      when there is none. */
  function SupportedIndex(tags: seq<string>): (k: nat)
    ensures k <= |tags|
    ensures forall j :: 0 <= j < k ==> !IsLocale(BaseOf(tags[j]))
    ensures k < |tags| ==> IsLocale(BaseOf(tags[k]))
  {
    if tags == [] then 0
    else if IsLocale(BaseOf(tags[0])) then 0
    else 1 + SupportedIndex(tags[1..])
  }

  /** The loop over the tags: the first one, by list position, whose primary subtag is a
      supported locale. */
  function FirstSupported(tags: seq<string>): (r: Option<Locale>)
    ensures r.None? <==> SupportedIndex(tags) == |tags|
    ensures r.Some? ==> Code(r.value) == BaseOf(tags[SupportedIndex(tags)])
  {
    if tags == [] then None
    else
      var base := BaseOf(tags[0]);
      if base != "" && IsLocale(base) then ParseLocale(base)
      else FirstSupported(tags[1..])
  }

  /** One step of the loop, at position `i`. */
  lemma FirstSupportedFrom(tags: seq<string>, i: nat)
    requires i < |tags|
    ensures FirstSupported(tags[i..]) ==
      if IsLocale(BaseOf(tags[i])) then ParseLocale(BaseOf(tags[i])) else FirstSupported(tags[i + 1..])
  {
    assert tags[i..][0] == tags[i] && tags[i..][1..] == tags[i + 1..];
  }

  /** `detectLocaleFromHeader`: the default locale for a missing or empty header and for a
      header naming no supported language. */
  function DetectLocaleFromHeader(acceptLanguage: Option<string>): (r: Locale)
    ensures acceptLanguage.None? || acceptLanguage.value == "" ==> r == DefaultLocale
    ensures acceptLanguage.Some? && acceptLanguage.value != "" ==>
      var first := FirstSupported(PreferredTags(acceptLanguage.value));
      r == if first.Some? then first.value else DefaultLocale
  {
    if acceptLanguage.None? || acceptLanguage.value == "" then DefaultLocale
    else FirstSupported(PreferredTags(acceptLanguage.value)).GetOr(DefaultLocale)
  }

  /** `cookieLocale && isLocale(cookieLocale)`. */
  predicate ValidCookie(cookie: Option<string>) {
    cookie.Some? && cookie.value != "" && IsLocale(cookie.value)
  }

  /** The locale the root redirects to: a valid cookie first, the header otherwise. */
  function RootLocale(cookie: Option<string>, acceptLanguage: Option<string>): (r: Locale)
    ensures ValidCookie(cookie) ==> Code(r) == cookie.value
    ensures !ValidCookie(cookie) ==> r == DetectLocaleFromHeader(acceptLanguage)
  {
    if ValidCookie(cookie) then ParseLocale(cookie.value).value
    else DetectLocaleFromHeader(acceptLanguage)
  }

  /** `Root()`: the path it redirects to. */
  function Root(cookie: Option<string>, acceptLanguage: Option<string>): (r: string)
    ensures r == "/" + Code(RootLocale(cookie, acceptLanguage))
    ensures ValidCookie(cookie) ==> r == "/" + cookie.value
    ensures r == "/en" || r == "/ar"
  {
    "/" + Code(RootLocale(cookie, acceptLanguage))
  }

  /** An invalid cookie is ignored: the header decides as if there were no cookie. */
  lemma InvalidCookieIgnored(cookie: string, acceptLanguage: Option<string>)
    requires !IsLocale(cookie)
    ensures Root(Some(cookie), acceptLanguage) == Root(None, acceptLanguage)
  {
  }

  // The two examples below are computed in small steps, one fact per lemma.

  /** A header holding one bare tag lists just that tag. */
  lemma {:induction false} OneTagHeader(t: string)
    requires t != [] && !IsJsWhitespace(t[0]) && !IsJsWhitespace(t[|t| - 1])
    requires ',' !in t && ';' !in t
    ensures PreferredTags(t) == [t]
  {
    SplitNoSep(t, ',');
    SplitNoSep(t, ';');
    TrimOfWord(t);
    assert [t][1..] == [];
  }

  lemma RegionHeaderTags()
    ensures PreferredTags("ar-EG") == ["ar-EG"]
  {
    OneTagHeader("ar-EG");
  }

  lemma RegionTagBase()
    ensures BaseOf("ar-EG") == "ar"
  {
    assert "ar-EG" == "ar" + ['-'] + "EG";
    SplitAtFirst("ar", "EG", '-');
  }

  lemma RegionTagSupported()
    ensures FirstSupported(["ar-EG"]) == Some(Ar)
  {
    RegionTagBase();
  }

  /** A region tag selects its language: `ar-EG` gives Arabic. */
  lemma RegionTagExample()
    ensures DetectLocaleFromHeader(Some("ar-EG")) == Ar
  {
    RegionHeaderTags();
    RegionTagSupported();
  }

  lemma ListHeaderParts()
    ensures Split("fr-FR, ar;q=0.5", ',') == ["fr-FR", " ar;q=0.5"]
  {
    assert "fr-FR, ar;q=0.5" == "fr-FR" + [','] + " ar;q=0.5";
    SplitTwo("fr-FR", " ar;q=0.5", ',');
  }

  lemma ListFirstTag()
    ensures Trim(Split("fr-FR", ';')[0]) == "fr-FR"
  {
    SplitNoSep("fr-FR", ';');
    TrimOfWord("fr-FR");
  }

  lemma ArTrim()
    ensures Trim(" ar") == "ar"
  {
    assert " ar" == [' '] + "ar";
    TrimSpaceWord("ar");
  }

  lemma ListSecondTag()
    ensures Trim(Split(" ar;q=0.5", ';')[0]) == "ar"
  {
    assert " ar;q=0.5" == " ar" + [';'] + "q=0.5";
    SplitAtFirst(" ar", "q=0.5", ';');
    ArTrim();
  }

  lemma TagsOfCons(p: string, rest: seq<string>)
    ensures var tag := Trim(Split(p, ';')[0]);
            TagsOf([p] + rest) == (if tag != "" then [tag] else []) + TagsOf(rest)
  {
    assert ([p] + rest)[1..] == rest;
  }

  lemma SecondPartTags()
    ensures TagsOf([" ar;q=0.5"]) == ["ar"]
  {
    ListSecondTag();
    TagsOfCons(" ar;q=0.5", []);
    assert [" ar;q=0.5"] + [] == [" ar;q=0.5"];
  }

  lemma ListHeaderTags()
    ensures PreferredTags("fr-FR, ar;q=0.5") == ["fr-FR", "ar"]
  {
    var parts := Split("fr-FR, ar;q=0.5", ',');
    ListHeaderParts();
    assert parts == ["fr-FR"] + [" ar;q=0.5"];
    ListFirstTag();
    TagsOfCons("fr-FR", [" ar;q=0.5"]);
    SecondPartTags();
    assert TagsOf(parts) == ["fr-FR"] + ["ar"];
  }

  lemma ListTagBases()
    ensures BaseOf("fr-FR") == "fr" && BaseOf("ar") == "ar"
  {
    assert "fr-FR" == "fr" + ['-'] + "FR";
    SplitAtFirst("fr", "FR", '-');
    SplitNoSep("ar", '-');
  }

  lemma ListFirstSupported()
    ensures FirstSupported(["fr-FR", "ar"]) == Some(Ar)
  {
    ListTagBases();
    assert ["fr-FR", "ar"][1..] == ["ar"];
  }

  /** List position wins over q-values: `fr-FR, ar;q=0.5` gives Arabic. */
  lemma ListOrderExample()
    ensures DetectLocaleFromHeader(Some("fr-FR, ar;q=0.5")) == Ar
  {
    ListHeaderTags();
    ListFirstSupported();
  }
}
