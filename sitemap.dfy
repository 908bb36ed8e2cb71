/** app/sitemap.ts: one sitemap entry per locale for each static page, blog post and insight
    module, each with its English and Arabic alternates. */
module Sitemap {
  import opened Wrappers
  import opened I18n
  import Seo
  import InsightModules

  /** A sitemap entry; `lastModified` is the build's timestamp. */
  datatype Entry = Entry(url: string, lastModified: int, en: string, ar: string)

  const StaticPaths: seq<string> :=
    ["", "/about", "/services", "/insights", "/blog", "/faq", "/testimonials", "/results", "/contact"]

  /** The entry for one locale and one path suffix. */
  function EntryFor(base: string, updatedAt: int, l: Locale, suffix: string): (e: Entry)
    ensures e.url == base + "/" + Code(l) + suffix
    ensures e.en == base + "/en" + suffix && e.ar == base + "/ar" + suffix
    ensures e.lastModified == updatedAt
  {
    Entry(base + "/" + Code(l) + suffix, updatedAt, base + "/en" + suffix, base + "/ar" + suffix)
  }

  function Prefixed(prefix: string, names: seq<string>): (r: seq<string>)
    ensures |r| == |names| && forall k :: 0 <= k < |names| ==> r[k] == prefix + names[k]
  {
    seq(|names|, k requires 0 <= k < |names| => prefix + names[k])
  }

  /** The suffixes of one locale, in push order: static paths, then blog posts, then
      insight modules. */
  function Suffixes(blogSlugs: seq<string>, moduleSlugs: seq<string>): (r: seq<string>)
    ensures |r| == |StaticPaths| + |blogSlugs| + |moduleSlugs|
  {
    StaticPaths + Prefixed("/blog/", blogSlugs) + Prefixed("/insights/", moduleSlugs)
  }

  function EntriesFor(base: string, updatedAt: int, l: Locale, suffixes: seq<string>): (r: seq<Entry>)
    ensures |r| == |suffixes|
    ensures forall k :: 0 <= k < |suffixes| ==> r[k] == EntryFor(base, updatedAt, l, suffixes[k])
  {
    seq(|suffixes|, k requires 0 <= k < |suffixes| => EntryFor(base, updatedAt, l, suffixes[k]))
  }

  /** The entries of the locales `ls`, locale after locale. */
  function Expected(base: string, updatedAt: int, blogSlugs: Locale -> seq<string>,
                    moduleSlugs: seq<string>, ls: seq<Locale>): seq<Entry>
  {
    if ls == [] then []
    else Expected(base, updatedAt, blogSlugs, moduleSlugs, ls[..|ls| - 1])
         + EntriesFor(base, updatedAt, ls[|ls| - 1], Suffixes(blogSlugs(ls[|ls| - 1]), moduleSlugs))
  }

  lemma EntriesForSnoc(base: string, updatedAt: int, l: Locale, done: seq<string>, s: string)
    ensures EntriesFor(base, updatedAt, l, done + [s]) ==
            EntriesFor(base, updatedAt, l, done) + [EntryFor(base, updatedAt, l, s)]
  {
  }

  /** The body of the outer loop: push the entries of one locale — static paths, then
      blog posts, then insight modules. */
  method PushLocale(entries: seq<Entry>, baseUrl: string, updatedAt: int, locale: Locale,
                    slugs: seq<string>, moduleSlugs: seq<string>) returns (out: seq<Entry>)
    ensures out == entries + EntriesFor(baseUrl, updatedAt, locale, Suffixes(slugs, moduleSlugs))
  {
    out := entries;
    ghost var done: seq<string> := [];
    var j := 0;
    while j < |StaticPaths|
      invariant 0 <= j <= |StaticPaths|
      invariant done == StaticPaths[..j]
      invariant out == entries + EntriesFor(baseUrl, updatedAt, locale, done)
    {
      EntriesForSnoc(baseUrl, updatedAt, locale, done, StaticPaths[j]);
      out := out + [EntryFor(baseUrl, updatedAt, locale, StaticPaths[j])];
      done := done + [StaticPaths[j]];
      j := j + 1;
    }
    var k := 0;
    while k < |slugs|
      invariant 0 <= k <= |slugs|
      invariant done == StaticPaths + Prefixed("/blog/", slugs[..k])
      invariant out == entries + EntriesFor(baseUrl, updatedAt, locale, done)
    {
      EntriesForSnoc(baseUrl, updatedAt, locale, done, "/blog/" + slugs[k]);
      out := out + [EntryFor(baseUrl, updatedAt, locale, "/blog/" + slugs[k])];
      assert Prefixed("/blog/", slugs[..k + 1]) == Prefixed("/blog/", slugs[..k]) + ["/blog/" + slugs[k]];
      done := done + ["/blog/" + slugs[k]];
      k := k + 1;
    }
    assert slugs[..k] == slugs;
    var n := 0;
    while n < |moduleSlugs|
      invariant 0 <= n <= |moduleSlugs|
      invariant done == StaticPaths + Prefixed("/blog/", slugs) + Prefixed("/insights/", moduleSlugs[..n])
      invariant out == entries + EntriesFor(baseUrl, updatedAt, locale, done)
    {
      EntriesForSnoc(baseUrl, updatedAt, locale, done, "/insights/" + moduleSlugs[n]);
      out := out + [EntryFor(baseUrl, updatedAt, locale, "/insights/" + moduleSlugs[n])];
      assert Prefixed("/insights/", moduleSlugs[..n + 1])
          == Prefixed("/insights/", moduleSlugs[..n]) + ["/insights/" + moduleSlugs[n]];
      done := done + ["/insights/" + moduleSlugs[n]];
      n := n + 1;
    }
    assert moduleSlugs[..n] == moduleSlugs;
  }

  /** `sitemap()`, for a site-URL setting, a build timestamp and the blog slugs of each
      locale. */
  method BuildSitemap(siteUrlEnv: Option<string>, updatedAt: int, blogSlugs: Locale -> seq<string>)
    returns (entries: seq<Entry>)
    ensures entries == Expected(Seo.GetSiteUrl(siteUrlEnv), updatedAt, blogSlugs,
                                InsightModules.Slugs(InsightModules.AllModules()), Locales)
  {
    var baseUrl := Seo.GetSiteUrl(siteUrlEnv);
    var moduleSlugs := InsightModules.Slugs(InsightModules.AllModules());
    entries := [];
    var i := 0;
    while i < |Locales|
      invariant 0 <= i <= |Locales|
      invariant entries == Expected(baseUrl, updatedAt, blogSlugs, moduleSlugs, Locales[..i])
    {
      entries := PushLocale(entries, baseUrl, updatedAt, Locales[i], blogSlugs(Locales[i]), moduleSlugs);
      assert Locales[..i + 1][..i] == Locales[..i];
      i := i + 1;
    }
    assert Locales[..i] == Locales;
  }

  /** The entry count is, summed over the locales, nine static pages plus that locale's
      posts plus every insight module. */
  lemma {:induction false} ExpectedCount(base: string, updatedAt: int, blogSlugs: Locale -> seq<string>,
                                         moduleSlugs: seq<string>, ls: seq<Locale>)
    ensures |Expected(base, updatedAt, blogSlugs, moduleSlugs, ls)| == CountFor(blogSlugs, |moduleSlugs|, ls)
  {
    if ls != [] {
      ExpectedCount(base, updatedAt, blogSlugs, moduleSlugs, ls[..|ls| - 1]);
    }
  }

  function CountFor(blogSlugs: Locale -> seq<string>, modules: nat, ls: seq<Locale>): nat {
    if ls == [] then 0
    else CountFor(blogSlugs, modules, ls[..|ls| - 1]) + 9 + |blogSlugs(ls[|ls| - 1])| + modules
  }

  /** For the site's two locales and seven modules: 32 entries plus the posts of each
      locale; English first, each locale starting with its home page. */
  lemma SitemapShape(base: string, updatedAt: int, blogSlugs: Locale -> seq<string>)
    ensures var ms := InsightModules.Slugs(InsightModules.AllModules());
            var es := Expected(base, updatedAt, blogSlugs, ms, Locales);
            && |es| == 32 + |blogSlugs(En)| + |blogSlugs(Ar)|
            && es[0].url == base + "/en"
            && es[16 + |blogSlugs(En)|].url == base + "/ar"
  {
    var ms := InsightModules.Slugs(InsightModules.AllModules());
    InsightModules.RegistrySlugs();
    assert |ms| == 7;
    ExpectedCount(base, updatedAt, blogSlugs, ms, Locales);
    assert Locales[..1] == [En] && [En][..0] == [];
    var first := EntriesFor(base, updatedAt, En, Suffixes(blogSlugs(En), ms));
    assert Expected(base, updatedAt, blogSlugs, ms, [En]) == first;
    assert first[0].url == base + "/en" + "";
    var second := EntriesFor(base, updatedAt, Ar, Suffixes(blogSlugs(Ar), ms));
    assert Expected(base, updatedAt, blogSlugs, ms, Locales) == first + second;
    assert second[0].url == base + "/ar" + "";
  }

  /** An entry carries the build timestamp, and its URL and both alternates differ only in
      the three characters of the locale prefix that follows the base URL. */
  predicate Agrees(base: string, updatedAt: int, e: Entry) {
    && e.lastModified == updatedAt
    && |e.url| >= |base| + 3 && |e.en| == |e.url| && |e.ar| == |e.url|
    && e.url[..|base|] == base
    && e.en == base + "/en" + e.url[|base| + 3..]
    && e.ar == base + "/ar" + e.url[|base| + 3..]
  }

  lemma EntryForAgrees(base: string, updatedAt: int, l: Locale, s: string)
    ensures Agrees(base, updatedAt, EntryFor(base, updatedAt, l, s))
  {
    var e := EntryFor(base, updatedAt, l, s);
    assert e.url == base + ("/" + Code(l) + s);
    assert e.url[|base| + 3..] == s;
  }

  /** Every entry of the sitemap agrees with its alternates and the build timestamp. */
  lemma {:induction false} EntriesAgree(base: string, updatedAt: int, blogSlugs: Locale -> seq<string>,
                                        moduleSlugs: seq<string>, ls: seq<Locale>)
    ensures forall k :: 0 <= k < |Expected(base, updatedAt, blogSlugs, moduleSlugs, ls)| ==>
              Agrees(base, updatedAt, Expected(base, updatedAt, blogSlugs, moduleSlugs, ls)[k])
  {
    if ls != [] {
      EntriesAgree(base, updatedAt, blogSlugs, moduleSlugs, ls[..|ls| - 1]);
      var prev := Expected(base, updatedAt, blogSlugs, moduleSlugs, ls[..|ls| - 1]);
      var l := ls[|ls| - 1];
      var suffixes := Suffixes(blogSlugs(l), moduleSlugs);
      var last := EntriesFor(base, updatedAt, l, suffixes);
      var es := prev + last;
      assert Expected(base, updatedAt, blogSlugs, moduleSlugs, ls) == es;
      forall k | 0 <= k < |es|
        ensures Agrees(base, updatedAt, es[k])
      {
        if k >= |prev| {
          assert es[k] == last[k - |prev|];
          EntryForAgrees(base, updatedAt, l, suffixes[k - |prev|]);
        } else {
          assert es[k] == prev[k];
        }
      }
    }
  }
}
