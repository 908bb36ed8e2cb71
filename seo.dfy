/** lib/seo.ts: per-page metadata (title, canonical URL and language alternates, Open
    Graph and Twitter cards) and absolute URLs against the configured site URL. */
module Seo {
  import opened Wrappers
  import opened Strings
  import opened I18n

  datatype PageType = Website | Article

  datatype Languages = Languages(en: string, ar: string, xDefault: string)

  datatype OgImage = OgImage(url: string, width: int, height: int, alt: string)

  datatype OpenGraph = OpenGraph(title: string, description: string, pageType: PageType,
                                 url: string, siteName: string, locale: string,
                                 alternateLocale: string, images: seq<OgImage>)

  datatype Twitter = Twitter(card: string, title: string, description: string, images: seq<string>)

  datatype Metadata = Metadata(title: string, description: string, canonical: string,
                               languages: Languages, openGraph: OpenGraph, twitter: Twitter)

  const DefaultImage := "/images/doctor.webp"
  const DefaultSiteUrl := "https://www.drislamelhelou.com"

  /** The Open Graph locale tag of a locale. */
  function OgLocale(l: Locale): string {
    if l == Ar then "ar_EG" else "en_US"
  }

  /** `buildLocalizedMetadata`; an absent `type` or `image` takes its default. */
  function BuildLocalizedMetadata(locale: Locale, path: string, title: string, description: string,
                                  pageType: Option<PageType>, image: Option<string>): (r: Metadata)
    ensures r.title == title + " • " + BrandName
    ensures r.openGraph.title == r.title && r.twitter.title == r.title
    ensures r.description == description && r.openGraph.description == description
            && r.twitter.description == description
    ensures r.canonical == "/" + Code(locale) + path && r.openGraph.url == r.canonical
    ensures r.languages == Languages("/en" + path, "/ar" + path, "/en" + path)
    ensures r.openGraph.pageType == pageType.GetOr(Website)
    ensures r.openGraph.siteName == GetClinicBrandName(locale)
    ensures r.openGraph.locale == (if locale == Ar then "ar_EG" else "en_US")
    ensures r.openGraph.alternateLocale == (if locale == Ar then "en_US" else "ar_EG")
    ensures r.openGraph.images == [OgImage(image.GetOr(DefaultImage), 1200, 630, title)]
    ensures r.twitter.images == [image.GetOr(DefaultImage)] && r.twitter.card == "summary_large_image"
  {
    var fullTitle := title + " • " + BrandName;
    var canonical := "/" + Code(locale) + path;
    var img := image.GetOr(DefaultImage);
    Metadata(fullTitle, description, canonical,
             Languages("/en" + path, "/ar" + path, "/en" + path),
             OpenGraph(fullTitle, description, pageType.GetOr(Website), canonical,
                       GetClinicBrandName(locale), OgLocale(locale), OgLocale(Other(locale)),
                       [OgImage(img, 1200, 630, title)]),
             Twitter("summary_large_image", fullTitle, description, [img]))
  }

  /** The canonical URL is the page's own language alternate, and the two Open Graph
      locales are swapped between the two languages of the same page. */
  lemma CanonicalIsOwnAlternate(locale: Locale, path: string, title: string, description: string,
                                pageType: Option<PageType>, image: Option<string>)
    ensures var r := BuildLocalizedMetadata(locale, path, title, description, pageType, image);
            var s := BuildLocalizedMetadata(Other(locale), path, title, description, pageType, image);
            && r.canonical == (if locale == En then r.languages.en else r.languages.ar)
            && r.languages == s.languages
            && r.openGraph.locale == s.openGraph.alternateLocale
            && r.openGraph.alternateLocale == s.openGraph.locale
            && r.openGraph.locale != r.openGraph.alternateLocale
  {
    assert "ar_EG"[0] != "en_US"[0];
  }

  /** `getSiteUrl()`: the configured URL, or the default when unset or empty. */
  function GetSiteUrl(env: Option<string>): (r: string)
    ensures env.Some? && env.value != "" ==> r == env.value
    ensures env.None? || env.value == "" ==> r == DefaultSiteUrl
  {
    if env.Some? && env.value != "" then env.value else DefaultSiteUrl
  }

  predicate IsAbsolute(path: string) {
    StartsWith(path, "http://") || StartsWith(path, "https://")
  }

  /** `toAbsoluteUrl(path)`: absolute URLs unchanged, otherwise the site URL followed by the
      path with exactly one added '/' when it lacks its own. */
  function ToAbsoluteUrl(env: Option<string>, path: string): (r: string)
    ensures IsAbsolute(path) ==> r == path
    ensures !IsAbsolute(path) && StartsWith(path, "/") ==> r == GetSiteUrl(env) + path
    ensures !IsAbsolute(path) && !StartsWith(path, "/") ==> r == GetSiteUrl(env) + "/" + path
  {
    if IsAbsolute(path) then path
    else GetSiteUrl(env) + (if StartsWith(path, "/") then path else "/" + path)
  }

  lemma StartsWithAppend(a: string, b: string, p: string)
    requires StartsWith(a, p)
    ensures StartsWith(a + b, p)
  {
    assert (a + b)[..|p|] == a[..|p|];
  }

  /** With an absolute site URL, the result is absolute and converting it again changes
      nothing. */
  lemma ToAbsoluteUrlIdempotent(env: Option<string>, path: string)
    requires IsAbsolute(GetSiteUrl(env))
    ensures IsAbsolute(ToAbsoluteUrl(env, path))
    ensures ToAbsoluteUrl(env, ToAbsoluteUrl(env, path)) == ToAbsoluteUrl(env, path)
  {
    var site := GetSiteUrl(env);
    if !IsAbsolute(path) {
      var tail := if StartsWith(path, "/") then path else "/" + path;
      if StartsWith(site, "http://") {
        StartsWithAppend(site, tail, "http://");
      } else {
        StartsWithAppend(site, tail, "https://");
      }
    }
  }

  /** The default site URL is absolute. */
  lemma DefaultSiteUrlAbsolute()
    ensures IsAbsolute(DefaultSiteUrl)
  {
    assert DefaultSiteUrl[..8] == "https://";
  }

  /** `getDefaultSocialImage()`. */
  function GetDefaultSocialImage(env: Option<string>): (r: string)
    ensures r == GetSiteUrl(env) + "/images/doctor.webp"
  {
    assert DefaultImage[0] == '/' && StartsWith(DefaultImage, "/");
    ToAbsoluteUrl(env, DefaultImage)
  }

  /** `getPublisherLogo()`. */
  function GetPublisherLogo(env: Option<string>): (r: string)
    ensures r == GetSiteUrl(env) + "/brand/logo.png"
  {
    assert "/brand/logo.png"[0] == '/' && StartsWith("/brand/logo.png", "/");
    ToAbsoluteUrl(env, "/brand/logo.png")
  }
}
