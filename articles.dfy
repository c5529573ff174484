/**
 * What the regional crawler does with one article page
 * (`fetchClaimReviewsFromArticle` in worker/src/index.js and
 * worker/src/index_backup_2.js): the JSON-LD records with `reviewUrl` back-filled,
 * or else one record built from the page's `<title>`.
 *
 * The network and the regular-expression scans are the oracles of `Web`.
 */
module Articles {
  import opened Js
  import opened Claims
  import JsonLd
  import Seqs

  /** The regular expressions whose global scans the worker runs over a page. */
  datatype Pattern =
    /** `<script ... type="application/ld+json" ...>(...)</script>`, index.js and index_backup_2.js */
    | LdJsonScript
    /** `crawlListing`'s default `href` pattern in index.js (no `#` in the path) */
    | ListingAnchor
    /** `crawlListing`'s default `href` pattern in index_backup_2.js (`#` allowed) */
    | ListingAnchorAnyTail
    /** `crawlSiteSearch`'s dated-path `href` pattern in index.js */
    | SearchAnchor

  /**
   * The world as the worker sees it. `fetchText` is None where it throws (a
   * network failure or a non-ok status); `scan` gives the first capture group of
   * every match, in document order; `titleTag` is the capture of
   * `/<title>(.*?)<\/title>/i`, if any; `parse` is `JSON.parse`; `hostname` is
   * `new URL(u).hostname` and `canonical` is `new URL(u).toString()`, None where
   * the constructor throws; `encodeComponent` is `encodeURIComponent`.
   */
  datatype Web = Web(
    fetchText: string -> Option<string>,
    scan: (Pattern, string) -> seq<string>,
    titleTag: string -> Option<string>,
    parse: string -> Option<Json>,
    hostname: string -> Option<string>,
    canonical: string -> Option<string>,
    encodeComponent: string -> string)

  /** The index of the first line terminator at or after `k` (or `|s|`): where `.*` stops. */
  function LineEnd(s: string, k: nat): (n: nat)
    requires k <= |s|
    ensures k <= n <= |s|
    ensures forall i | k <= i < n :: !IsLineTerminator(s[i])
    ensures n == |s| || IsLineTerminator(s[n])
    decreases |s| - k
  {
    if k < |s| && !IsLineTerminator(s[k]) then LineEnd(s, k + 1) else k
  }

  /** `/\s+\|/` matches at index `i`: a whitespace run starts there and is followed by `|`. */
  predicate PipeMatchAt(s: string, i: nat) {
    i < |s| && IsSpace(s[i]) && SkipSpaces(s, i) < |s| && s[SkipSpaces(s, i)] == '|'
  }

  /** The leftmost index at or after `k` where `/\s+\|/` matches. */
  function FirstPipeMatch(s: string, k: nat): (r: Option<nat>)
    requires k <= |s|
    ensures r.Some? ==> k <= r.value < |s| && PipeMatchAt(s, r.value)
    ensures r.Some? ==> forall i | k <= i < r.value :: !PipeMatchAt(s, i)
    ensures r.None? ==> forall i | k <= i < |s| :: !PipeMatchAt(s, i)
    decreases |s| - k
  {
    if k == |s| then None
    else if PipeMatchAt(s, k) then Some(k)
    else FirstPipeMatch(s, k + 1)
  }

  /** `s.replace(/\s+\|.*\/, "")`: the first match, from its whitespace to the end of the line, removed. */
  function CutAtPipe(s: string): string {
    match FirstPipeMatch(s, 0)
    case None => s
    case Some(i) => s[..i] + s[LineEnd(s, SkipSpaces(s, i) + 1)..]
  }

  /** `(tmatch ? tmatch[1] : "").replace(/\s+\|.*\/, "").trim()` */
  function PageTitle(tag: Option<string>): string {
    Trim(CutAtPipe(tag.GetOr("")))
  }

  /** The record of the title fallback. */
  function TitleRecord(title: string, host: string, url: string): ClaimRecord {
    ClaimRecord(text := "", claimant := "", claimDate := "", reviewPublisher := host,
      reviewUrl := url, rating := "", title := title)
  }

  /** `claimreviews.map(r => ({ ...r, reviewUrl: r.reviewUrl || url }))` */
  function Backfill(rs: seq<ClaimRecord>, url: string): (r: seq<ClaimRecord>)
    ensures |r| == |rs|
    ensures forall i | 0 <= i < |rs| :: r[i].reviewUrl == (if rs[i].reviewUrl == "" then url else rs[i].reviewUrl)
    ensures forall i | 0 <= i < |rs| :: r[i].(reviewUrl := rs[i].reviewUrl) == rs[i]
  {
    seq(|rs|, i requires 0 <= i < |rs| => rs[i].(reviewUrl := Or(rs[i].reviewUrl, url)))
  }

  /** The base URL the extractor receives. */
  function BaseFor(d: JsonLd.Dialect, url: string): string {
    if d.pageBase then url else ""
  }

  /** The extractor's output for a fetched page. */
  function PageClaims(d: JsonLd.Dialect, web: Web, url: string, html: string): seq<ClaimRecord> {
    JsonLd.Extract(d, web.parse, web.scan(LdJsonScript, html), BaseFor(d, url))
  }

  /**
   * `fetchClaimReviewsFromArticle(url)`; None where it throws (the page fetch,
   * or `new URL(url)` in the fallback).
   */
  function ArticleRecords(d: JsonLd.Dialect, web: Web, url: string): Option<seq<ClaimRecord>> {
    match web.fetchText(url)
    case None => None
    case Some(html) =>
      var claims := PageClaims(d, web, url, html);
      if |claims| > 0 then Some(Backfill(claims, url))
      else
        match web.hostname(url)
        case None => None
        case Some(host) => Some([TitleRecord(PageTitle(web.titleTag(html)), host, url)])
  }

  method FetchClaimReviewsFromArticle(d: JsonLd.Dialect, web: Web, url: string) returns (r: Option<seq<ClaimRecord>>)
    ensures r == ArticleRecords(d, web, url)
  {
    var html := web.fetchText(url);
    if html.None? {
      return None;
    }
    var claims := JsonLd.ExtractClaimReviews(d, web.parse, web.scan(LdJsonScript, html.value), BaseFor(d, url));
    if |claims| > 0 {
      return Some(Backfill(claims, url));
    }
    var title := PageTitle(web.titleTag(html.value));
    var host := web.hostname(url);
    if host.None? {
      return None;
    }
    return Some([TitleRecord(title, host.value, url)]);
  }

  /** What one article adds to `collected`: its records, or nothing where it throws. */
  function ArticleFn(d: JsonLd.Dialect, web: Web): string -> seq<ClaimRecord> {
    url => var items := ArticleRecords(d, web, url); if items.Some? then items.value else []
  }

  /** The articles of one listing or search page, in link order; an article that throws is skipped. */
  function FromArticles(d: JsonLd.Dialect, web: Web, links: seq<string>): seq<ClaimRecord> {
    Seqs.FlatMap(links, ArticleFn(d, web))
  }

  /** `for (const u of links) { try { collected.push(...await fetchClaimReviewsFromArticle(u)); } catch {} }` */
  method CollectArticles(d: JsonLd.Dialect, web: Web, links: seq<string>) returns (items: seq<ClaimRecord>)
    ensures items == FromArticles(d, web, links)
  {
    items := [];
    for k := 0 to |links|
      invariant items == FromArticles(d, web, links[..k])
    {
      Seqs.FlatMapStep(links, k, ArticleFn(d, web));
      var r := FetchClaimReviewsFromArticle(d, web, links[k]);
      if r.Some? {
        items := items + r.value;
      }
    }
    assert links[..|links|] == links;
  }

  /**
   * With JSON-LD records on the page, the article gives the same number of
   * records, each with an empty `reviewUrl` replaced by the article URL.
   */
  lemma ArticleWithClaims(d: JsonLd.Dialect, web: Web, url: string, html: string)
    requires web.fetchText(url) == Some(html)
    requires |PageClaims(d, web, url, html)| > 0
    ensures ArticleRecords(d, web, url).Some?
    ensures var rs := ArticleRecords(d, web, url).value; var cs := PageClaims(d, web, url, html);
      |rs| == |cs| &&
      (forall i | 0 <= i < |cs| :: rs[i].(reviewUrl := cs[i].reviewUrl) == cs[i]) &&
      (url != "" ==> forall i | 0 <= i < |rs| :: rs[i].reviewUrl != "")
  {
  }

  /**
   * Without JSON-LD records, exactly one record: the page title, the host as
   * publisher, the article URL, and no rating.
   */
  lemma ArticleFallback(d: JsonLd.Dialect, web: Web, url: string, html: string, host: string)
    requires web.fetchText(url) == Some(html)
    requires PageClaims(d, web, url, html) == []
    requires web.hostname(url) == Some(host)
    ensures ArticleRecords(d, web, url) == Some([TitleRecord(PageTitle(web.titleTag(html)), host, url)])
    ensures var r := ArticleRecords(d, web, url).value[0];
      r.reviewUrl == url && r.rating == "" && r.reviewPublisher == host && r.text == ""
  {
  }

  /** A page that cannot be fetched throws, so its caller skips it. */
  lemma ArticleUnreachable(d: JsonLd.Dialect, web: Web, url: string)
    requires web.fetchText(url) == None
    ensures ArticleRecords(d, web, url) == None
  {
  }

  /**
   * The fallback title: `title + " |" + rest` is cut to `title` when `title`
   * holds no `|`, does not end in whitespace and `rest` stays on one line, so the
   * first `\s+|` is the one before `rest`.
   */
  lemma {:induction false} CutBeforeSuffix(title: string, rest: string)
    requires forall k | 0 <= k < |title| :: title[k] != '|'
    requires title == [] || !IsSpace(title[|title| - 1])
    requires forall k | 0 <= k < |rest| :: !IsLineTerminator(rest[k])
    ensures CutAtPipe(title + " |" + rest) == title
  {
    var s := title + " |" + rest;
    var n := |title|;
    assert s[n] == ' ' && s[n + 1] == '|';
    forall j | 0 <= j < n ensures !PipeMatchAt(s, j) {
      NoPipeInTitle(s, n, j);
    }
    assert SkipSpaces(s, n + 1) == n + 1;
    assert SkipSpaces(s, n) == n + 1;
    assert PipeMatchAt(s, n);
    NoEarlierMatch(s, 0, n);
    forall k | n + 2 <= k < |s| ensures !IsLineTerminator(s[k]) {
      assert s[k] == rest[k - n - 2];
    }
    LineEndAtEnd(s, n + 2);
    assert s[..n] == title;
  }

  /** Before a non-space `s[n - 1]` with no `|` in `s[..n]`, every whitespace run ends on a character other than `|`. */
  lemma NoPipeInTitle(s: string, n: nat, j: nat)
    requires j < n <= |s|
    requires forall k | 0 <= k < n :: s[k] != '|'
    requires !IsSpace(s[n - 1])
    ensures !PipeMatchAt(s, j)
  {
    if IsSpace(s[j]) {
      var e := SkipSpaces(s, j);
      assert e < n;
      assert s[e] != '|';
    }
  }

  /** The leftmost match is the first index where the pattern matches. */
  lemma {:induction false} NoEarlierMatch(s: string, k: nat, n: nat)
    requires k <= n < |s|
    requires forall j | k <= j < n :: !PipeMatchAt(s, j)
    requires PipeMatchAt(s, n)
    ensures FirstPipeMatch(s, k) == Some(n)
    decreases n - k
  {
    if k < n {
      NoEarlierMatch(s, k + 1, n);
    }
  }

  lemma {:induction false} LineEndAtEnd(s: string, k: nat)
    requires k <= |s|
    requires forall i | k <= i < |s| :: !IsLineTerminator(s[i])
    ensures LineEnd(s, k) == |s|
    decreases |s| - k
  {
    if k < |s| {
      LineEndAtEnd(s, k + 1);
    }
  }

  /** A title without a whitespace run before `|` is only trimmed. */
  lemma TitleWithoutSuffix(t: string)
    requires forall i | 0 <= i < |t| :: !PipeMatchAt(t, i)
    ensures PageTitle(Some(t)) == Trim(t)
  {
    NoMatchNone(t, 0);
  }

  lemma {:induction false} NoMatchNone(s: string, k: nat)
    requires k <= |s|
    requires forall i | k <= i < |s| :: !PipeMatchAt(s, i)
    ensures FirstPipeMatch(s, k) == None
    decreases |s| - k
  {
    if k < |s| {
      NoMatchNone(s, k + 1);
    }
  }

  /** A page without a `<title>` gives an empty title. */
  lemma NoTitleTag()
    ensures PageTitle(None) == ""
  {
    assert FirstPipeMatch("", 0) == None;
  }

  /** Articles are taken in link order, each on its own. */
  lemma FromArticlesAppend(d: JsonLd.Dialect, web: Web, a: seq<string>, b: seq<string>)
    ensures FromArticles(d, web, a + b) == FromArticles(d, web, a) + FromArticles(d, web, b)
  {
    Seqs.FlatMapAppend(a, b, ArticleFn(d, web));
  }

  /** An article that throws adds nothing, and the links after it are still visited. */
  lemma FailingArticleSkipped(d: JsonLd.Dialect, web: Web, pre: seq<string>, url: string, post: seq<string>)
    requires ArticleRecords(d, web, url).None?
    ensures FromArticles(d, web, pre + [url] + post) == FromArticles(d, web, pre) + FromArticles(d, web, post)
  {
    Seqs.FlatMapSkip(pre, url, post, ArticleFn(d, web));
  }
}
