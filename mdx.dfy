/** lib/mdx.ts: the blog's posts — which files are posts, their order on the index page,
    the table of contents of a post and its reading time. */
module Mdx {
  import opened Wrappers
  import opened Strings

  // ----- getAllPostSlugs -----

  const MdxExt := ".mdx"

  /** `getAllPostSlugs(locale)`, given whether the locale's directory exists and its file
      names: the names ending in '.mdx', in directory order, with that suffix removed. */
  function PostSlugs(dirExists: bool, files: seq<string>): (r: seq<string>)
    ensures !dirExists ==> r == []
    ensures |r| <= |files|
    ensures forall k :: 0 <= k < |r| ==> r[k] + MdxExt in files
    ensures dirExists && |files| == 1 ==>
      r == if EndsWith(files[0], MdxExt) then [files[0][..|files[0]| - 4]] else []
  {
    if !dirExists || files == [] then []
    else
      var f := files[0];
      var rest := PostSlugs(dirExists, files[1..]);
      if EndsWith(f, MdxExt) then
        assert f[..|f| - 4] + MdxExt == f;
        [f[..|f| - 4]] + rest
      else rest
  }

  /** One file at the head of the listing. */
  lemma PostSlugsCons(f: string, rest: seq<string>)
    ensures PostSlugs(true, [f] + rest) ==
      (if EndsWith(f, MdxExt) then [f[..|f| - 4]] else []) + PostSlugs(true, rest)
  {
    assert ([f] + rest)[0] == f && ([f] + rest)[1..] == rest;
  }

  /** No '.mdx' file is missed: each one's name without the suffix is a slug. */
  lemma {:induction false} PostSlugsComplete(files: seq<string>)
    ensures forall i :: 0 <= i < |files| && EndsWith(files[i], MdxExt) ==>
      files[i][..|files[i]| - 4] in PostSlugs(true, files)
  {
    if files != [] {
      PostSlugsComplete(files[1..]);
      forall i | 0 <= i < |files| && EndsWith(files[i], MdxExt)
        ensures files[i][..|files[i]| - 4] in PostSlugs(true, files)
      {
        if i > 0 {
          assert files[i] == files[1..][i - 1];
        }
      }
    }
  }

  /** The filter and the map work file by file, so the slugs come out in directory
      order: the slugs of a listing are those of its first part followed by those of the
      rest. */
  lemma {:induction false} PostSlugsAppend(a: seq<string>, b: seq<string>)
    ensures PostSlugs(true, a + b) == PostSlugs(true, a) + PostSlugs(true, b)
  {
    if a == [] {
      assert a + b == b;
    } else {
      var f, tail := a[0], a[1..];
      var head := if EndsWith(f, MdxExt) then [f[..|f| - 4]] else [];
      assert PostSlugs(true, a + b) == head + PostSlugs(true, tail + b) by {
        assert a + b == [f] + (tail + b);
        PostSlugsCons(f, tail + b);
      }
      assert PostSlugs(true, a) == head + PostSlugs(true, tail) by {
        assert a == [f] + tail;
        PostSlugsCons(f, tail);
      }
      PostSlugsAppend(tail, b);
      assert head + (PostSlugs(true, tail) + PostSlugs(true, b))
          == (head + PostSlugs(true, tail)) + PostSlugs(true, b);
    }
  }

  // ----- getAllPosts -----

  /** A post's front matter, as gray-matter reads it from the file. */
  datatype Frontmatter = Frontmatter(title: string, description: string, date: string,
                                     tags: Option<seq<string>>, image: Option<string>)

  datatype PostSummary = PostSummary(slug: string, frontmatter: Frontmatter)

  /** JavaScript's `a < b` on strings: lexicographic by character. */
  predicate Less(a: string, b: string)
    decreases |a|
  {
    if a == [] then b != []
    else if b == [] then false
    else if a[0] != b[0] then a[0] < b[0]
    else Less(a[1..], b[1..])
  }

  lemma {:induction false} LessAsymmetric(a: string, b: string)
    ensures !(Less(a, b) && Less(b, a))
    decreases |a|
  {
    if a != [] && b != [] && a[0] == b[0] {
      LessAsymmetric(a[1..], b[1..]);
    }
  }

  lemma {:induction false} LessTotal(a: string, b: string)
    ensures a == b || Less(a, b) || Less(b, a)
    decreases |a|
  {
    if a != [] && b != [] && a[0] == b[0] {
      LessTotal(a[1..], b[1..]);
      if a[1..] == b[1..] {
        assert a == [a[0]] + a[1..] && b == [b[0]] + b[1..];
      }
    }
  }

  lemma {:induction false} LessTransitive(a: string, b: string, c: string)
    requires Less(a, b) && Less(b, c)
    ensures Less(a, c)
    decreases |a|
  {
    if a != [] && a[0] == b[0] && b[0] == c[0] {
      LessTransitive(a[1..], b[1..], c[1..]);
    }
  }

  /** "Not earlier than" is transitive. */
  lemma NotLessTransitive(a: string, b: string, c: string)
    requires !Less(a, b) && !Less(b, c)
    ensures !Less(a, c)
  {
    LessTotal(a, b);
    if Less(a, c) && Less(b, a) {
      LessTransitive(b, a, c);
    }
  }

  /** Later dates first. */
  predicate NewestFirst(ps: seq<PostSummary>) {
    forall i, j :: 0 <= i < j < |ps| ==> !Less(ps[i].frontmatter.date, ps[j].frontmatter.date)
  }

  /** `p` is not earlier than any post of `ps`. */
  predicate NotEarlierThanAll(p: PostSummary, ps: seq<PostSummary>) {
    forall k :: 0 <= k < |ps| ==> !Less(p.frontmatter.date, ps[k].frontmatter.date)
  }

  lemma NewestFirstCons(p: PostSummary, ps: seq<PostSummary>)
    requires NewestFirst(ps) && NotEarlierThanAll(p, ps)
    ensures NewestFirst([p] + ps)
  {
    var r := [p] + ps;
    forall i, j | 0 <= i < j < |r|
      ensures !Less(r[i].frontmatter.date, r[j].frontmatter.date)
    {
      if i == 0 {
        assert r[j] == ps[j - 1];
      } else {
        assert r[i] == ps[i - 1] && r[j] == ps[j - 1];
      }
    }
  }

  /** Places `p` before the first post that is not later than it. */
  function Insert(p: PostSummary, ps: seq<PostSummary>): (r: seq<PostSummary>)
    ensures multiset(r) == multiset{p} + multiset(ps)
  {
    if ps == [] || !Less(p.frontmatter.date, ps[0].frontmatter.date) then [p] + ps
    else
      assert ps == [ps[0]] + ps[1..];
      [ps[0]] + Insert(p, ps[1..])
  }

  lemma {:induction false} NotEarlierThanAllPerm(q: PostSummary, a: seq<PostSummary>, b: seq<PostSummary>)
    requires NotEarlierThanAll(q, a) && multiset(a) == multiset(b)
    ensures NotEarlierThanAll(q, b)
  {
    forall k | 0 <= k < |b|
      ensures !Less(q.frontmatter.date, b[k].frontmatter.date)
    {
      assert b[k] in multiset(b);
      assert b[k] in a;
      var m :| 0 <= m < |a| && a[m] == b[k];
    }
  }

  lemma {:induction false} InsertSorted(p: PostSummary, ps: seq<PostSummary>)
    requires NewestFirst(ps)
    ensures NewestFirst(Insert(p, ps))
  {
    if ps == [] || !Less(p.frontmatter.date, ps[0].frontmatter.date) {
      forall k | 0 <= k < |ps|
        ensures !Less(p.frontmatter.date, ps[k].frontmatter.date)
      {
        if k > 0 {
          NotLessTransitive(p.frontmatter.date, ps[0].frontmatter.date, ps[k].frontmatter.date);
        }
      }
      NewestFirstCons(p, ps);
    } else {
      var q := ps[0];
      var tail := ps[1..];
      assert NewestFirst(tail) by {
        forall i, j | 0 <= i < j < |tail|
          ensures !Less(tail[i].frontmatter.date, tail[j].frontmatter.date)
        {
          assert tail[i] == ps[i + 1] && tail[j] == ps[j + 1];
        }
      }
      InsertSorted(p, tail);
      LessAsymmetric(p.frontmatter.date, q.frontmatter.date);
      var withP := [p] + tail;
      assert NotEarlierThanAll(q, withP) by {
        forall k | 0 <= k < |withP|
          ensures !Less(q.frontmatter.date, withP[k].frontmatter.date)
        {
          if k > 0 { assert withP[k] == ps[k]; }
        }
      }
      assert multiset(withP) == multiset{p} + multiset(tail);
      NotEarlierThanAllPerm(q, withP, Insert(p, tail));
      NewestFirstCons(q, Insert(p, tail));
    }
  }

  /** The `sort` of `getAllPosts`: a permutation of the posts with later dates first.
      The comparator never answers 0, so the order among posts of the same date is
      whatever the engine's sort produces; here it is that of insertion. */
  function SortNewestFirst(ps: seq<PostSummary>): (r: seq<PostSummary>)
    ensures multiset(r) == multiset(ps)
    ensures NewestFirst(r)
  {
    if ps == [] then []
    else
      assert ps == [ps[0]] + ps[1..];
      var rest := SortNewestFirst(ps[1..]);
      InsertSorted(ps[0], rest);
      Insert(ps[0], rest)
  }

  function Summaries(slugs: seq<string>, frontmatterOf: string -> Frontmatter): (r: seq<PostSummary>)
    ensures |r| == |slugs|
    ensures forall k :: 0 <= k < |slugs| ==> r[k] == PostSummary(slugs[k], frontmatterOf(slugs[k]))
  {
    seq(|slugs|, k requires 0 <= k < |slugs| => PostSummary(slugs[k], frontmatterOf(slugs[k])))
  }

  /** `getAllPosts(locale)`; `frontmatterOf(slug)` is the front matter of `{slug}.mdx`. */
  function GetAllPosts(dirExists: bool, files: seq<string>, frontmatterOf: string -> Frontmatter)
    : (r: seq<PostSummary>)
    ensures multiset(r) == multiset(Summaries(PostSlugs(dirExists, files), frontmatterOf))
    ensures NewestFirst(r)
  {
    SortNewestFirst(Summaries(PostSlugs(dirExists, files), frontmatterOf))
  }

  // ----- The table of contents of getPost -----

  /** `content.split(/\r?\n/)`: split at '\n', dropping a '\r' just before it. */
  function Lines(content: string): (r: seq<string>)
    ensures |r| == |Split(content, '\n')|
  {
    var pieces := Split(content, '\n');
    seq(|pieces|, k requires 0 <= k < |pieces| =>
      if k < |pieces| - 1 && pieces[k] != [] && pieces[k][|pieces[k]| - 1] == '\r'
      then pieces[k][..|pieces[k]| - 1] else pieces[k])
  }

  /** How many '#' a line starts with. */
  function LeadingHashes(line: string): (n: nat)
    ensures n <= |line|
    ensures forall k :: 0 <= k < n ==> line[k] == '#'
    ensures n < |line| ==> line[n] != '#'
  {
    if line == [] || line[0] != '#' then 0 else 1 + LeadingHashes(line[1..])
  }

  /** `s.replace(/`/g, '')`. */
  function RemoveBackticks(s: string): (r: string)
    ensures '`' !in r
    ensures forall c :: c in r ==> c in s
    ensures '`' !in s ==> r == s
    ensures |s| == 1 ==> r == (if s[0] == '`' then "" else s)
  {
    if s == [] then "" else (if s[0] == '`' then "" else [s[0]]) + RemoveBackticks(s[1..])
  }

  /** Backticks are removed one character at a time, the rest kept in order. */
  lemma {:induction false} RemoveBackticksAppend(a: string, b: string)
    ensures RemoveBackticks(a + b) == RemoveBackticks(a) + RemoveBackticks(b)
  {
    if a == [] {
      assert a + b == b;
    } else {
      assert (a + b)[0] == a[0] && (a + b)[1..] == a[1..] + b;
      var head := if a[0] == '`' then "" else [a[0]];
      assert RemoveBackticks(a + b) == head + RemoveBackticks(a[1..] + b);
      RemoveBackticksAppend(a[1..], b);
    }
  }

  /** `s.replace(/\[(.*?)\]\(.*?\)/g, '$1')`: scanning left to right, a '[' followed
      later by "](" and after that by ')' starts a link; it is replaced by the text up to
      the first "](" and scanning resumes after the first ')' past it.  (The heading text
      this is applied to never holds a line terminator, which '.' would refuse.) */
  function StripLinks(s: string): (r: string)
    ensures forall c :: c in r ==> c in s
    decreases |s|
  {
    if s == [] then ""
    else if s[0] == '[' && IndexOf(s, "](") >= 0
            && IndexOf(s[IndexOf(s, "](") + 2..], ")") >= 0 then
      var j := IndexOf(s, "](");
      assert j != 0 by { assert s[j] == ']'; }
      var k := IndexOf(s[j + 2..], ")");
      var rest := StripLinks(s[j + 2 + k + 1..]);
      assert forall c :: c in s[1..j] ==> c in s;
      assert forall c :: c in rest ==> c in s[j + 2 + k + 1..];
      s[1..j] + rest
    else
      [s[0]] + StripLinks(s[1..])
  }

  /** Text without '[' holds no link and is kept as it is. */
  lemma {:induction false} StripLinksNoBracket(s: string)
    requires '[' !in s
    ensures StripLinks(s) == s
  {
    if s != [] {
      assert '[' !in s[1..];
      StripLinksNoBracket(s[1..]);
    }
  }

  /** A link `[text](url)` at the start is replaced by its text, and what follows is
      processed in turn.  The text holds no ']' and the url no ')', so the lazy captures
      end exactly at the link's own "](" and ")". */
  lemma StripLinksLink(text: string, url: string, rest: string)
    requires ']' !in text && ')' !in url
    ensures StripLinks("[" + text + "](" + url + ")" + rest) == text + StripLinks(rest)
  {
    var s := "[" + text + "](" + url + ")" + rest;
    var j := 1 + |text|;
    assert s[1..j] == text;
    assert OccursAt(s, "](", j) by { assert s[j..j + 2] == "](" ; }
    forall m | 0 <= m < j ensures !OccursAt(s, "](", m) {
      assert s[m] != ']' by { if m > 0 { assert s[m] == text[m - 1]; } }
      assert m + 2 <= |s| ==> s[m..m + 2][0] == s[m];
    }
    IndexOfAt(s, "](", j);
    var t := s[j + 2..];
    assert t == url + ")" + rest;
    assert OccursAt(t, ")", |url|) by { assert t[|url|..|url| + 1] == ")"; }
    forall m | 0 <= m < |url| ensures !OccursAt(t, ")", m) {
      assert t[m] == url[m];
      assert m + 1 <= |t| ==> t[m..m + 1][0] == t[m];
    }
    IndexOfAt(t, ")", |url|);
    assert s[j + 2 + |url| + 1..] == rest;
  }

  lemma TrimKeeps(s: string)
    ensures forall c :: c in Trim(s) ==> c in s
  {
    var t := TrimStart(s);
    assert forall c :: c in t ==> c in s;
  }

  /** A heading of the table of contents. */
  datatype TocItem = TocItem(level: int, text: string, id: string)

  /** `/^(#{2,3})\s+(.+?)\s*$/.exec(line)` followed by the text cleanup: the level and
      the cleaned text of a line that is an H2 or H3 heading with some text left.  The
      captured text is the line after its '#'s with the surrounding whitespace removed;
      '.' refuses line terminators, so such a character inside it defeats the match. */
  function HeadingOf(line: string): (r: Option<(int, string)>)
    ensures r.Some? ==> var h := r.value.0;
      && (h == 2 || h == 3) && h < |line|
      && (forall k :: 0 <= k < h ==> line[k] == '#') && IsJsWhitespace(line[h])
    ensures r.Some? ==> r.value.1 != "" && '`' !in r.value.1
    ensures r.Some? ==> r.value.1 == Trim(StripLinks(RemoveBackticks(Trim(line[r.value.0..]))))
    ensures LeadingHashes(line) != 2 && LeadingHashes(line) != 3 ==> r.None?
  {
    var h := LeadingHashes(line);
    if !(h == 2 || h == 3) || h >= |line| || !IsJsWhitespace(line[h]) then None
    else
      var captured := Trim(line[h..]);
      if captured == "" || exists k :: 0 <= k < |captured| && IsLineTerminator(captured[k]) then None
      else
        var text := Trim(StripLinks(RemoveBackticks(captured)));
        TrimKeeps(StripLinks(RemoveBackticks(captured)));
        if text == "" then None else Some((h, text))
  }

  /** The table of contents of `lines`: one item per heading, in document order, its id
      given by the slugger from its text and the texts of the items before it (the
      slugger numbers repeated headings). */
  function Toc(lines: seq<string>, slug: (string, seq<string>) -> string): (r: seq<TocItem>)
    ensures |r| <= |lines|
  {
    if lines == [] then []
    else
      var prev := Toc(lines[..|lines| - 1], slug);
      match HeadingOf(lines[|lines| - 1])
      case None => prev
      case Some(h) => prev + [TocItem(h.0, h.1, slug(h.1, Texts(prev)))]
  }

  function Texts(items: seq<TocItem>): (r: seq<string>)
    ensures |r| == |items|
    ensures forall k :: 0 <= k < |items| ==> r[k] == items[k].text
  {
    seq(|items|, k requires 0 <= k < |items| => items[k].text)
  }

  /** The texts of the headings, in document order, whatever the slugger does. */
  function HeadingTexts(lines: seq<string>): seq<string> {
    if lines == [] then []
    else
      HeadingTexts(lines[..|lines| - 1])
      + (match HeadingOf(lines[|lines| - 1]) case None => [] case Some(h) => [h.1])
  }

  /** Every item is an H2 or H3 with non-empty text free of backticks, and the items are
      the document's headings in order. */
  lemma {:induction false} TocItemsWellFormed(lines: seq<string>, slug: (string, seq<string>) -> string)
    ensures forall k :: 0 <= k < |Toc(lines, slug)| ==>
      var t := Toc(lines, slug)[k];
      (t.level == 2 || t.level == 3) && t.text != "" && '`' !in t.text
    ensures Texts(Toc(lines, slug)) == HeadingTexts(lines)
  {
    if lines != [] {
      var init, last := lines[..|lines| - 1], lines[|lines| - 1];
      TocItemsWellFormed(init, slug);
      var prev := Toc(init, slug);
      match HeadingOf(last)
      case None =>
      case Some(h) =>
        var item := TocItem(h.0, h.1, slug(h.1, Texts(prev)));
        assert Toc(lines, slug) == prev + [item];
        assert Texts(prev + [item]) == Texts(prev) + [h.1];
    }
  }

  /** One more line extends the table by that line's heading, if it has one. */
  lemma TocSnoc(lines: seq<string>, i: int, slug: (string, seq<string>) -> string)
    requires 0 <= i < |lines|
    ensures var prev := Toc(lines[..i], slug);
      Toc(lines[..i + 1], slug) == match HeadingOf(lines[i])
        case None => prev
        case Some(h) => prev + [TocItem(h.0, h.1, slug(h.1, Texts(prev)))]
  {
    assert lines[..i + 1][..i] == lines[..i];
  }

  /** The `for` loop of `getPost` over `content`'s lines. */
  method BuildToc(content: string, slug: (string, seq<string>) -> string) returns (toc: seq<TocItem>)
    ensures toc == Toc(Lines(content), slug)
  {
    var lines := Lines(content);
    toc := [];
    var i := 0;
    while i < |lines|
      invariant 0 <= i <= |lines|
      invariant toc == Toc(lines[..i], slug)
    {
      TocSnoc(lines, i, slug);
      var m := HeadingOf(lines[i]);
      if m.Some? {
        var (level, text) := m.value;
        toc := toc + [TocItem(level, text, slug(text, Texts(toc)))];
      }
      i := i + 1;
    }
    assert lines[..i] == lines;
  }

  // ----- Reading time -----

  /** `s.trim().split(/\s+/).filter(Boolean).length`: the maximal runs of non-whitespace
      characters, counted at their last character. */
  function WordCount(s: string): (n: nat)
    ensures n <= |s|
    ensures n == 0 <==> AllWhitespace(s)
  {
    if s == [] then 0
    else
      var ends := !IsJsWhitespace(s[0]) && (|s| == 1 || IsJsWhitespace(s[1]));
      var n := (if ends then 1 else 0) + WordCount(s[1..]);
      assert AllWhitespace(s) <==> IsJsWhitespace(s[0]) && AllWhitespace(s[1..]);
      n
  }

  /** Words on either side of a whitespace boundary are counted separately: the count of
      a concatenation is the sum of the counts when the first part ends, or the second
      starts, with whitespace. */
  lemma {:induction false} WordCountAppend(a: string, b: string)
    requires a == [] || b == [] || IsJsWhitespace(a[|a| - 1]) || IsJsWhitespace(b[0])
    ensures WordCount(a + b) == WordCount(a) + WordCount(b)
  {
    if a == [] {
      assert a + b == b;
    } else {
      assert (a + b)[0] == a[0] && (a + b)[1..] == a[1..] + b;
      if |a| > 1 {
        assert (a + b)[1] == a[1] && a[1..][|a| - 2] == a[|a| - 1];
      }
      WordCountAppend(a[1..], b);
    }
  }

  /** So text split at a whitespace character has the words of both sides. */
  lemma WordCountSplit(a: string, c: char, b: string)
    requires IsJsWhitespace(c)
    ensures WordCount(a + [c] + b) == WordCount(a) + WordCount(b)
  {
    WordCountAppend(a, [c] + b);
    WordCountAppend([c], b);
    assert a + [c] + b == a + ([c] + b);
  }

  /** A non-empty run without whitespace is one word. */
  lemma {:induction false} WordCountWord(w: string)
    requires w != [] && forall k :: 0 <= k < |w| ==> !IsJsWhitespace(w[k])
    ensures WordCount(w) == 1
  {
    if |w| > 1 {
      WordCountWord(w[1..]);
    }
  }

  /** `Math.max(1, Math.round(words / 200))`: at least one minute, otherwise the nearest
      whole number of 200-word minutes (halves round up). */
  function ReadingTimeMinutes(words: nat): (r: nat)
    ensures r >= 1
    ensures words < 300 ==> r == 1
    ensures words >= 100 ==> 200 * r - 100 <= words < 200 * r + 100
  {
    var rounded := (words + 100) / 200;
    if rounded < 1 then 1 else rounded
  }
}
