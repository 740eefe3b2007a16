/** The search box of the bug-hunt article list
    (SearchableArticleList.jsx): `filterArticles`, the section heading and
    the "no results" choice. */
module ArticleSearch {
  import opened Js
  import opened Sequences

  datatype Article = Article(id: int, title: string, summary: string, category: string, author: string, date: string)

  // ----- ASCII case mapping and JavaScript's trim -----

  function LowerChar(c: char): char {
    if 'A' <= c <= 'Z' then (c as int + 32) as char else c
  }

  function UpperChar(c: char): char {
    if 'a' <= c <= 'z' then (c as int - 32) as char else c
  }

  /** `s.toLowerCase()` on the ASCII letters. */
  function ToLower(s: string): (r: string)
    ensures |r| == |s|
    ensures forall i :: 0 <= i < |s| ==> r[i] == LowerChar(s[i])
  {
    seq(|s|, i requires 0 <= i < |s| => LowerChar(s[i]))
  }

  /** `s.toUpperCase()` on the ASCII letters. */
  function ToUpper(s: string): (r: string)
    ensures |r| == |s|
    ensures forall i :: 0 <= i < |s| ==> r[i] == UpperChar(s[i])
  {
    seq(|s|, i requires 0 <= i < |s| => UpperChar(s[i]))
  }

  /** Upper-casing first does not change the lower-cased string. */
  lemma LowerAfterUpper(s: string)
    ensures ToLower(ToUpper(s)) == ToLower(s)
  {
  }

  /** The characters `String.prototype.trim` strips: white space and line
      terminators. */
  predicate IsTrimmable(c: char) {
    var n := c as int;
    n == 0x09 || n == 0x0A || n == 0x0B || n == 0x0C || n == 0x0D || n == 0x20 ||
    n == 0xA0 || n == 0x1680 || 0x2000 <= n <= 0x200A || n == 0x2028 || n == 0x2029 ||
    n == 0x202F || n == 0x205F || n == 0x3000 || n == 0xFEFF
  }

  function TrimStart(s: string): (r: string)
    ensures |r| <= |s| && r == s[|s| - |r|..]
    ensures forall k :: 0 <= k < |s| - |r| ==> IsTrimmable(s[k])
    ensures r != [] ==> !IsTrimmable(r[0])
  {
    if s != [] && IsTrimmable(s[0]) then TrimStart(s[1..]) else s
  }

  function TrimEnd(s: string): (r: string)
    ensures |r| <= |s| && r == s[..|r|]
    ensures forall k :: |r| <= k < |s| ==> IsTrimmable(s[k])
    ensures r != [] ==> !IsTrimmable(r[|r| - 1])
  {
    if s != [] && IsTrimmable(s[|s| - 1]) then TrimEnd(s[..|s| - 1]) else s
  }

  /** `s.trim()`: `s` without its leading and trailing trimmable characters. */
  function Trim(s: string): string {
    TrimEnd(TrimStart(s))
  }

  /** The trimmed string is an infix of `s`, and everything around it is
      trimmable. */
  lemma TrimIsInfix(s: string)
    ensures var r, a := Trim(s), |s| - |TrimStart(s)|;
      && a + |r| <= |s| && r == s[a..a + |r|]
      && (forall k :: 0 <= k < a ==> IsTrimmable(s[k]))
      && (forall k :: a + |r| <= k < |s| ==> IsTrimmable(s[k]))
  {
    var t := TrimStart(s);
    var r := TrimEnd(t);
    var a := |s| - |t|;
    assert r == s[a..][..|r|] == s[a..a + |r|];
    forall k | a + |r| <= k < |s|
      ensures IsTrimmable(s[k])
    {
      assert s[k] == t[k - a];
    }
  }

  /** The trimmed string neither starts nor ends with a trimmable character. */
  lemma TrimEnds(s: string)
    ensures var r := Trim(s); r != [] ==> !IsTrimmable(r[0]) && !IsTrimmable(r[|r| - 1])
  {
    var t := TrimStart(s);
    if TrimEnd(t) != [] {
      assert TrimEnd(t)[0] == t[0];
    }
  }

  /** The trimmed string is empty exactly when every character of `s` is
      trimmable. */
  lemma TrimBlank(s: string)
    ensures Trim(s) == [] <==> forall k :: 0 <= k < |s| ==> IsTrimmable(s[k])
  {
    var t := TrimStart(s);
    var a := |s| - |t|;
    if !forall k :: 0 <= k < |s| ==> IsTrimmable(s[k]) {
      var k :| 0 <= k < |s| && !IsTrimmable(s[k]);
      assert a <= k;
      assert t[k - a] == s[k];
    }
  }

  // ----- filterArticles -----

  /** The search string `term.toLowerCase().trim()`. */
  function Needle(term: string): string {
    Trim(ToLower(term))
  }

  predicate ArticleMatches(a: Article, needle: string) {
    Includes(ToLower(a.title), needle) || Includes(ToLower(a.summary), needle) || Includes(ToLower(a.category), needle)
  }

  /** `filterArticles(term)`: everything for a blank term, otherwise the
      articles whose title, summary or category contains the term, ignoring
      case. */
  function FilterArticles(articles: seq<Article>, term: string): (r: seq<Article>)
    ensures Needle(term) == [] ==> r == articles
    ensures Needle(term) != [] ==>
      && (forall k :: 0 <= k < |r| ==> r[k] in articles && ArticleMatches(r[k], Needle(term)))
      && (forall k :: 0 <= k < |articles| && ArticleMatches(articles[k], Needle(term)) ==> articles[k] in r)
  {
    var needle := Needle(term);
    if needle == [] then articles
    else Filter(articles, (a: Article) => ArticleMatches(a, needle))
  }

  /** The result keeps the articles' order. */
  lemma FilterKeepsOrder(articles: seq<Article>, term: string)
    ensures IsSubsequence(FilterArticles(articles, term), articles)
  {
    var needle := Needle(term);
    if needle == [] {
      FilterAllPass(articles, (a: Article) => true);
      FilterIsSubsequence(articles, (a: Article) => true);
    } else {
      FilterIsSubsequence(articles, (a: Article) => ArticleMatches(a, needle));
    }
  }

  /** A term made only of white space shows every article. */
  lemma BlankTermShowsAll(articles: seq<Article>, term: string)
    requires forall k :: 0 <= k < |term| ==> IsTrimmable(term[k])
    ensures FilterArticles(articles, term) == articles
  {
    var lower := ToLower(term);
    forall k | 0 <= k < |lower|
      ensures IsTrimmable(lower[k])
    {
      assert lower[k] == LowerChar(term[k]) == term[k];
    }
    TrimBlank(lower);
  }

  /** The search ignores the case of the term. */
  lemma FilterIgnoresTermCase(articles: seq<Article>, term: string)
    ensures FilterArticles(articles, ToUpper(term)) == FilterArticles(articles, term)
  {
    LowerAfterUpper(term);
  }

  // ----- what the list shows -----

  /** The section heading for `shown` out of `total` articles. */
  function Heading(shown: seq<Article>, total: nat): (h: string)
    ensures h == "All Articles" <==> |shown| == total
    ensures |shown| != total ==> h == "Search Results (" + NatToString(|shown|) + ")"
  {
    if |shown| == total then "All Articles" else "Search Results (" + NatToString(|shown|) + ")"
  }

  /** The "No articles found" block is rendered iff nothing is shown. */
  predicate ShowsNoResults(shown: seq<Article>) {
    |shown| == 0
  }

  /** A blank term always gives the "All Articles" heading. */
  lemma BlankTermHeading(articles: seq<Article>, term: string)
    requires Needle(term) == []
    ensures Heading(FilterArticles(articles, term), |articles|) == "All Articles"
  {
  }

  /** Nothing is shown exactly when there are no articles, or the term is
      not blank and no article contains it. */
  lemma NoResultsExactly(articles: seq<Article>, term: string)
    ensures ShowsNoResults(FilterArticles(articles, term)) <==>
      (articles == [] ||
       (Needle(term) != [] && forall k :: 0 <= k < |articles| ==> !ArticleMatches(articles[k], Needle(term))))
  {
    var needle := Needle(term);
    if needle != [] && forall k :: 0 <= k < |articles| ==> !ArticleMatches(articles[k], needle) {
      FilterNonePass(articles, (a: Article) => ArticleMatches(a, needle));
    }
  }
}
