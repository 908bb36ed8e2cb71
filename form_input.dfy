/** What the appointment and lead API routes share, each route holding its own identical
    copy: reading a field of the JSON body, the honeypot test, `isValidEmail`
    (app/api/appointment/route.ts, app/api/lead/route.ts) and the `safe` HTML escaping
    of e-mail content. */
module FormInput {
  import opened Wrappers
  import opened Strings
  import opened JsValues

  /** `String(body.key ?? '').trim()`. */
  function Field(body: JsValue, key: string): (r: string)
    ensures Get(body, key).JStr? ==> r == Trim(Get(body, key).s)
    ensures Nullish(Get(body, key)) ==> r == ""
  {
    Trim(TextOr(Get(body, key)))
  }

  /** `typeof body.company === 'string' && body.company.trim().length > 0`: a field that
      people never see, so only a bot fills it in. */
  predicate Honeypot(body: JsValue)
    ensures Honeypot(body) <==> Get(body, "company").JStr? && !AllWhitespace(Get(body, "company").s)
  {
    var company := Get(body, "company");
    if company.JStr? then
      TrimEmptyIffBlank(company.s);
      Trim(company.s) != ""
    else false
  }

  /** A parsed, truthy body without the honeypot filled in: what both routes go on to
      validate. */
  predicate Considered(body: Option<JsValue>) {
    body.Some? && Truthy(body.value) && !Honeypot(body.value)
  }

  /** What separates a notification subject's head from its topic: a spaced em dash. */
  const SubjectSeparator := " \U{2014} "

  /** A non-empty run of characters that are neither `\s` nor '@': `[^\s@]+`. */
  predicate Plain(t: string) {
    t != [] && forall k :: 0 <= k < |t| ==> !IsJsWhitespace(t[k]) && t[k] != '@'
  }

  /** `/^[^\s@]+@[^\s@]+\.[^\s@]+$/.test(s)`: the regular expression matches when `s`
      splits as a plain run, '@', a plain run, '.', a plain run.  Backtracking may pick
      any '.' after the '@'. */
  predicate IsValidEmail(s: string)
    ensures IsValidEmail(s) ==> 5 <= |s| && '@' in s && '.' in s
  {
    exists i, j :: 0 < i < j < |s| - 1 && s[i] == '@' && s[j] == '.'
      && Plain(s[..i]) && Plain(s[i + 1..j]) && Plain(s[j + 1..])
  }

  /** A '.' with at least one character on each side. */
  predicate HasInnerDot(t: string) {
    exists j :: 0 < j < |t| - 1 && t[j] == '.'
  }

  lemma PlainSlice(t: string, a: int, b: int)
    requires Plain(t) && 0 <= a < b <= |t|
    ensures Plain(t[a..b])
  {
    assert forall k :: 0 <= k < b - a ==> t[a..b][k] == t[a + k];
  }

  lemma PlainJoin(x: string, y: string, z: string)
    requires Plain(x) && Plain(z) && y == "."
    ensures Plain(x + y + z) && HasInnerDot(x + y + z)
  {
    assert (x + y + z)[|x|] == '.';
    var t := x + y + z;
    forall k | 0 <= k < |t|
      ensures !IsJsWhitespace(t[k]) && t[k] != '@'
    {
      if k < |x| { assert t[k] == x[k]; }
      else if k == |x| { assert t[k] == '.'; }
      else { assert t[k] == z[k - |x| - 1]; }
    }
  }

  /** The domain after the '@': plain, with a '.' between two characters. */
  predicate SplitsAt(s: string, i: int) {
    0 <= i < |s| && s[i] == '@' && Plain(s[..i]) && Plain(s[i + 1..]) && HasInnerDot(s[i + 1..])
  }

  lemma SliceAround(s: string, a: int, j: int)
    requires 0 <= a <= j < |s|
    ensures s[a..] == s[a..j] + [s[j]] + s[j + 1..]
  {
  }

  lemma ValidEmailSplits(s: string)
    requires IsValidEmail(s)
    ensures exists i :: SplitsAt(s, i)
  {
    var i, j :| 0 < i < j < |s| - 1 && s[i] == '@' && s[j] == '.'
      && Plain(s[..i]) && Plain(s[i + 1..j]) && Plain(s[j + 1..]);
    SliceAround(s, i + 1, j);
    PlainJoin(s[i + 1..j], ".", s[j + 1..]);
    assert SplitsAt(s, i);
  }

  lemma SplitsIsValid(s: string, i: int)
    requires SplitsAt(s, i)
    ensures IsValidEmail(s)
  {
    var d := s[i + 1..];
    var k :| 0 < k < |d| - 1 && d[k] == '.';
    var j := i + 1 + k;
    assert s[j] == '.';
    PlainSlice(d, 0, k);
    assert s[i + 1..j] == d[0..k];
    PlainSlice(d, k + 1, |d|);
    assert s[j + 1..] == d[k + 1..|d|];
    assert i > 0 by { assert s[..i] != []; }
  }

  /** The accepted addresses are exactly a non-empty local part and a domain, joined by
      '@', where neither part holds whitespace or '@' and the domain has a '.' with a
      character on each side. */
  lemma EmailShape(s: string)
    ensures IsValidEmail(s) <==> exists i :: SplitsAt(s, i)
  {
    if IsValidEmail(s) {
      ValidEmailSplits(s);
    }
    if exists i :: SplitsAt(s, i) {
      var i :| SplitsAt(s, i);
      SplitsIsValid(s, i);
    }
  }

  /** `"a@b.co"` is accepted. */
  lemma ValidEmailExample()
    ensures IsValidEmail("a@b.co")
  {
    var s := "a@b.co";
    assert s[..1] == "a" && s[2..3] == "b" && s[4..] == "co";
    assert s[1] == '@' && s[3] == '.';
    assert Plain("a") && Plain("b") && Plain("co");
  }

  // ----- `safe`: escaping text placed into the notification e-mail's HTML -----

  /** `safe(s)`: the four `replaceAll` calls, '&' first.  Text without the four special
      characters passes through unchanged. */
  function Safe(s: string): (r: string)
    ensures '&' !in s && '<' !in s && '>' !in s && '"' !in s ==> r == s
  {
    var r := ReplaceAllChar(ReplaceAllChar(ReplaceAllChar(ReplaceAllChar(s, '&', "&amp;"), '<', "&lt;"), '>', "&gt;"),
                            '"', "&quot;");
    if '&' !in s && '<' !in s && '>' !in s && '"' !in s then
      ReplaceAbsent(s, '&', "&amp;");
      ReplaceAbsent(s, '<', "&lt;");
      ReplaceAbsent(s, '>', "&gt;");
      ReplaceAbsent(s, '"', "&quot;");
      r
    else r
  }

  /** The entity a character becomes, or the character itself. */
  function EscapeChar(c: char): string {
    if c == '&' then "&amp;"
    else if c == '<' then "&lt;"
    else if c == '>' then "&gt;"
    else if c == '"' then "&quot;"
    else [c]
  }

  /** Escaping in one pass, character by character. */
  function Escape(s: string): (r: string)
    ensures '<' !in r && '>' !in r && '"' !in r
  {
    if s == [] then "" else EscapeChar(s[0]) + Escape(s[1..])
  }

  lemma {:induction false} ReplaceAllCharAppend(a: string, b: string, c: char, rep: string)
    ensures ReplaceAllChar(a + b, c, rep) == ReplaceAllChar(a, c, rep) + ReplaceAllChar(b, c, rep)
  {
    if a != [] {
      assert (a + b)[0] == a[0] && (a + b)[1..] == a[1..] + b;
      ReplaceAllCharAppend(a[1..], b, c, rep);
      assert ReplaceAllChar(a, c, rep) == (if a[0] == c then rep else [a[0]]) + ReplaceAllChar(a[1..], c, rep);
    } else {
      assert a + b == b;
    }
  }

  lemma SafeAppend(a: string, b: string)
    ensures Safe(a + b) == Safe(a) + Safe(b)
  {
    var s1a := ReplaceAllChar(a, '&', "&amp;");
    var s1b := ReplaceAllChar(b, '&', "&amp;");
    ReplaceAllCharAppend(a, b, '&', "&amp;");
    var s2a := ReplaceAllChar(s1a, '<', "&lt;");
    var s2b := ReplaceAllChar(s1b, '<', "&lt;");
    ReplaceAllCharAppend(s1a, s1b, '<', "&lt;");
    var s3a := ReplaceAllChar(s2a, '>', "&gt;");
    var s3b := ReplaceAllChar(s2b, '>', "&gt;");
    ReplaceAllCharAppend(s2a, s2b, '>', "&gt;");
    ReplaceAllCharAppend(s3a, s3b, '"', "&quot;");
  }

  /** A string without the four special characters goes through every replacement
      unchanged. */
  lemma {:induction false} ReplaceAbsent(s: string, c: char, rep: string)
    requires c !in s
    ensures ReplaceAllChar(s, c, rep) == s
  {
    if s != [] {
      ReplaceAbsent(s[1..], c, rep);
    }
  }

  lemma ReplaceOne(c: char, x: char, rep: string)
    ensures ReplaceAllChar([c], x, rep) == if c == x then rep else [c]
  {
    assert [c][1..] == [];
  }

  lemma SafeOneChar(c: char)
    ensures Safe([c]) == EscapeChar(c)
  {
    var s1 := ReplaceAllChar([c], '&', "&amp;");
    ReplaceOne(c, '&', "&amp;");
    var s2 := ReplaceAllChar(s1, '<', "&lt;");
    var s3 := ReplaceAllChar(s2, '>', "&gt;");
    if c == '&' {
      ReplaceAbsent(s1, '<', "&lt;");
      ReplaceAbsent(s2, '>', "&gt;");
      ReplaceAbsent(s3, '"', "&quot;");
    } else {
      ReplaceOne(c, '<', "&lt;");
      if c == '<' {
        ReplaceAbsent(s2, '>', "&gt;");
        ReplaceAbsent(s3, '"', "&quot;");
      } else {
        ReplaceOne(c, '>', "&gt;");
        if c == '>' {
          ReplaceAbsent(s3, '"', "&quot;");
        } else {
          ReplaceOne(c, '"', "&quot;");
        }
      }
    }
  }

  /** Replacing '&' first means no entity is escaped twice: the four passes amount to one
      character-by-character pass. */
  lemma {:induction false} SafeIsEscape(s: string)
    ensures Safe(s) == Escape(s)
  {
    if s != [] {
      assert s == [s[0]] + s[1..];
      SafeAppend([s[0]], s[1..]);
      SafeOneChar(s[0]);
      SafeIsEscape(s[1..]);
    }
  }

  /** One of the four entities starts at position `i`. */
  predicate EntityAt(r: string, i: int) {
    OccursAt(r, "&amp;", i) || OccursAt(r, "&lt;", i) || OccursAt(r, "&gt;", i) || OccursAt(r, "&quot;", i)
  }

  lemma OccursShift(e: string, r: string, p: string, i: int)
    requires OccursAt(r, p, i)
    ensures OccursAt(e + r, p, |e| + i)
  {
    assert (e + r)[|e| + i..|e| + i + |p|] == r[i..i + |p|];
  }

  lemma EntityAtShift(e: string, r: string, i: int)
    requires EntityAt(r, i)
    ensures EntityAt(e + r, |e| + i)
  {
    if OccursAt(r, "&amp;", i) { OccursShift(e, r, "&amp;", i); }
    else if OccursAt(r, "&lt;", i) { OccursShift(e, r, "&lt;", i); }
    else if OccursAt(r, "&gt;", i) { OccursShift(e, r, "&gt;", i); }
    else { OccursShift(e, r, "&quot;", i); }
  }

  /** Each '&' of `r` starts an entity. */
  predicate AmpersandsEscaped(r: string) {
    forall i :: 0 <= i < |r| && r[i] == '&' ==> EntityAt(r, i)
  }

  lemma EntityFirst(p: string, r: string)
    requires p == "&amp;" || p == "&lt;" || p == "&gt;" || p == "&quot;"
    ensures EntityAt(p + r, 0)
  {
    assert (p + r)[0..|p|] == p;
  }

  /** Only the first character of an entity is '&'. */
  lemma EscapeCharAmpersand(c: char, i: int)
    requires 0 <= i < |EscapeChar(c)| && EscapeChar(c)[i] == '&'
    ensures i == 0 && (c == '&' || c == '<' || c == '>' || c == '"')
  {
  }

  lemma {:induction false} EscapeConsEscaped(c: char, r: string)
    requires AmpersandsEscaped(r)
    ensures AmpersandsEscaped(EscapeChar(c) + r)
  {
    var e := EscapeChar(c);
    forall i | 0 <= i < |e + r| && (e + r)[i] == '&'
      ensures EntityAt(e + r, i)
    {
      if i >= |e| {
        assert r[i - |e|] == '&';
        EntityAtShift(e, r, i - |e|);
      } else {
        assert e[i] == '&';
        EscapeCharAmpersand(c, i);
        EntityFirst(e, r);
      }
    }
  }

  /** The escaped text has no '<', '>' or '"', and each '&' in it starts an entity. */
  lemma SafeOutput(s: string)
    ensures '<' !in Safe(s) && '>' !in Safe(s) && '"' !in Safe(s)
    ensures AmpersandsEscaped(Safe(s))
  {
    SafeIsEscape(s);
    EscapeAmpersands(s);
  }

  lemma {:induction false} EscapeAmpersands(s: string)
    ensures AmpersandsEscaped(Escape(s))
  {
    if s != [] {
      EscapeAmpersands(s[1..]);
      EscapeConsEscaped(s[0], Escape(s[1..]));
    }
  }

  /** Decoding the four entities. */
  function Unescape(r: string): string
    decreases |r|
  {
    if r == [] then ""
    else if StartsWith(r, "&amp;") then "&" + Unescape(r[5..])
    else if StartsWith(r, "&lt;") then "<" + Unescape(r[4..])
    else if StartsWith(r, "&gt;") then ">" + Unescape(r[4..])
    else if StartsWith(r, "&quot;") then "\"" + Unescape(r[6..])
    else [r[0]] + Unescape(r[1..])
  }

  lemma UnescapeAmp(r: string)
    ensures Unescape("&amp;" + r) == "&" + Unescape(r)
  {
    var t := "&amp;" + r;
    assert t[..5] == "&amp;" && t[5..] == r;
  }

  lemma UnescapeLt(r: string)
    ensures Unescape("&lt;" + r) == "<" + Unescape(r)
  {
    var t := "&lt;" + r;
    assert t[1] == 'l';
    assert t[..4] == "&lt;" && t[4..] == r;
  }

  lemma UnescapeGt(r: string)
    ensures Unescape("&gt;" + r) == ">" + Unescape(r)
  {
    var t := "&gt;" + r;
    assert t[1] == 'g';
    assert t[..4] == "&gt;" && t[4..] == r;
  }

  lemma UnescapeQuot(r: string)
    ensures Unescape("&quot;" + r) == "\"" + Unescape(r)
  {
    var t := "&quot;" + r;
    assert t[1] == 'q';
    assert t[..6] == "&quot;" && t[6..] == r;
  }

  lemma UnescapeOther(c: char, r: string)
    requires c != '&'
    ensures Unescape([c] + r) == [c] + Unescape(r)
  {
    var t := [c] + r;
    assert t[0] == c && t[1..] == r;
  }

  lemma UnescapeEscapeChar(c: char, r: string)
    ensures Unescape(EscapeChar(c) + r) == [c] + Unescape(r)
  {
    if c == '&' { UnescapeAmp(r); }
    else if c == '<' { UnescapeLt(r); }
    else if c == '>' { UnescapeGt(r); }
    else if c == '"' { UnescapeQuot(r); }
    else { UnescapeOther(c, r); }
  }

  lemma {:induction false} UnescapeEscape(s: string)
    ensures Unescape(Escape(s)) == s
  {
    if s != [] {
      UnescapeEscape(s[1..]);
      UnescapeEscapeChar(s[0], Escape(s[1..]));
      assert s == [s[0]] + s[1..];
    }
  }

  /** Escaping loses nothing: decoding the entities gives back the original text. */
  lemma UnescapeSafe(s: string)
    ensures Unescape(Safe(s)) == s
  {
    SafeIsEscape(s);
    UnescapeEscape(s);
  }
}
