/** components/SiteAnalytics.tsx: which page views and link clicks are reported. */
module SiteAnalytics {
  import opened Wrappers
  import opened Strings

  /** The path reported for a page view: the query string is appended after '?' only
      when there is one. */
  function TrackedPath(pathname: string, qs: string): (r: string)
    ensures StartsWith(r, pathname)
    ensures qs == "" ==> |r| == |pathname|
    ensures qs != "" ==> |r| == |pathname| + 1 + |qs| && r[|pathname|] == '?' && r[|pathname| + 1..] == qs
  {
    var r := if qs != "" then pathname + "?" + qs else pathname;
    assert r[..|pathname|] == pathname;
    r
  }

  /** A query string that is itself the whole tail after '?' can be read back. */
  lemma TrackedPathSplits(pathname: string, qs: string)
    requires '?' !in pathname && qs != ""
    ensures Before(TrackedPath(pathname, qs), '?') == pathname
  {
    var r := TrackedPath(pathname, qs);
    assert r == pathname + ['?'] + qs;
    BeforeAppend(pathname, ['?'] + qs, '?');
  }

  /** The event a click reports. */
  datatype ClickEvent = PhoneContact | WhatsappContact | Directions

  const MapsMarkers: seq<string> := ["google.com/maps", "maps.app.goo.gl", "google.com/maps/dir", "api=1&destination="]

  predicate IsWhatsapp(href: string) {
    Contains(href, "wa.me/") || Contains(href, "api.whatsapp.com/")
  }

  predicate IsMaps(href: string) {
    exists k :: 0 <= k < |MapsMarkers| && Contains(href, MapsMarkers[k])
  }

  /** The document's click listener: `href` is the `href` attribute of the nearest
      enclosing link (`None` when there is no such link).  A 'tel:' link is a phone
      contact whatever else it holds; then WhatsApp; then a maps link; else nothing. */
  function ClassifyClick(href: Option<string>): (r: Option<ClickEvent>)
    ensures href.None? ==> r.None?
    ensures r == Some(PhoneContact) <==> href.Some? && StartsWith(href.value, "tel:")
    ensures r == Some(WhatsappContact) <==>
      href.Some? && !StartsWith(href.value, "tel:") && IsWhatsapp(href.value)
    ensures r == Some(Directions) <==>
      href.Some? && !StartsWith(href.value, "tel:") && !IsWhatsapp(href.value) && IsMaps(href.value)
  {
    if href.None? then None
    else
      var h := href.value;
      if StartsWith(h, "tel:") then Some(PhoneContact)
      else if Contains(h, "wa.me/") || Contains(h, "api.whatsapp.com/") then Some(WhatsappContact)
      else if Contains(h, "google.com/maps") || Contains(h, "maps.app.goo.gl")
              || Contains(h, "google.com/maps/dir") || Contains(h, "api=1&destination=") then
        assert Contains(h, MapsMarkers[0]) || Contains(h, MapsMarkers[1])
               || Contains(h, MapsMarkers[2]) || Contains(h, MapsMarkers[3]);
        Some(Directions)
      else
        assert !IsMaps(h) by {
          forall k | 0 <= k < |MapsMarkers| ensures !Contains(h, MapsMarkers[k]) {
          }
        }
        None
  }

  /** If `q` starts with `p`, any string containing `q` contains `p`. */
  lemma {:induction false} ContainsPrefix(s: string, p: string, q: string)
    requires StartsWith(q, p) && Contains(s, q)
    ensures Contains(s, p)
    decreases |s|
  {
    if StartsWith(s, q) {
      assert s[..|p|] == q[..|p|];
    } else {
      ContainsPrefix(s[1..], p, q);
    }
  }

  /** The 'google.com/maps/dir' test never decides anything: every such link already
      contains 'google.com/maps'. */
  lemma MapsDirRedundant(href: string)
    requires Contains(href, "google.com/maps/dir")
    ensures Contains(href, "google.com/maps")
  {
    ContainsPrefix(href, "google.com/maps", "google.com/maps/dir");
  }
}
