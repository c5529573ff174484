/**
 * worker/src/index.js: the request router, the regional crawler
 * (`crawlListing`, `crawlSiteSearch`, `searchNigeriaClaims`) and the
 * `/api/ng-search` endpoint. The Google endpoint is `Api.SearchEndpoint`, the
 * extractor `JsonLd` in its strict dialect, the article step `Articles`.
 */
module Worker {
  import opened Js
  import opened Claims
  import Seqs
  import Api
  import JsonLd
  import Articles

  /** The home pages the site search is run against, in order. */
  const Seeds: seq<string> := [
    "https://dubawa.org",
    "https://factcheckhub.com",
    "https://factcheck.thecable.ng",
    "https://www.premiumtimesng.com",
    "https://africacheck.org",
    "https://factcheck.afp.com/AFP-Nigeria"]

  /** The listing pages crawled first, in order. */
  const ListingSources: seq<string> := [
    "https://dubawa.org/category/fact-check/",
    "https://factcheckhub.com/",
    "https://factcheck.thecable.ng/",
    "https://www.premiumtimesng.com/category/news/fact-checks",
    "https://africacheck.org/fact-checks",
    "https://factcheck.afp.com/AFP-Nigeria"]

  const ListingCap := 12
  const SearchCap := 10

  /** `crawlListing(listUrl)`: None where `fetchText` throws. */
  function ListingLinks(web: Articles.Web, listUrl: string): Option<seq<string>> {
    match web.fetchText(listUrl)
    case None => None
    case Some(html) => Some(Seqs.Take(Seqs.Distinct(web.scan(Articles.ListingAnchor, html)), ListingCap))
  }

  method CrawlListing(web: Articles.Web, listUrl: string) returns (links: Option<seq<string>>)
    ensures links == ListingLinks(web, listUrl)
  {
    var html := web.fetchText(listUrl);
    if html.None? {
      return None;
    }
    var hrefs := Seqs.InsertAll(web.scan(Articles.ListingAnchor, html.value));
    return Some(Seqs.Take(hrefs, ListingCap));
  }

  /** `${baseUrl.replace(/\/+$/,"")}/?s=${encodeURIComponent(q)}` */
  function SearchUrl(web: Articles.Web, base: string, q: string): string {
    Api.StripTrailingSlashes(base) + "/?s=" + web.encodeComponent(q)
  }

  /** `crawlSiteSearch(baseUrl, q)`: None where `fetchText` throws. */
  function SiteSearchLinks(web: Articles.Web, base: string, q: string): Option<seq<string>> {
    match web.fetchText(SearchUrl(web, base, q))
    case None => None
    case Some(html) => Some(Seqs.Take(Seqs.Distinct(web.scan(Articles.SearchAnchor, html)), SearchCap))
  }

  method CrawlSiteSearch(web: Articles.Web, base: string, q: string) returns (links: Option<seq<string>>)
    ensures links == SiteSearchLinks(web, base, q)
  {
    var html := web.fetchText(SearchUrl(web, base, q));
    if html.None? {
      return None;
    }
    var hrefs := Seqs.InsertAll(web.scan(Articles.SearchAnchor, html.value));
    return Some(Seqs.Take(hrefs, SearchCap));
  }

  /** What one listing page adds to `collected`; a listing that throws adds nothing. */
  function ListingRecords(web: Articles.Web, listUrl: string): seq<ClaimRecord> {
    var links := ListingLinks(web, listUrl);
    if links.Some? then Articles.FromArticles(JsonLd.Strict, web, links.value) else []
  }

  function ListingFn(web: Articles.Web): string -> seq<ClaimRecord> {
    listUrl => ListingRecords(web, listUrl)
  }

  /** What the site search of one seed adds to `collected`. */
  function SearchRecords(web: Articles.Web, q: string, base: string): seq<ClaimRecord> {
    var links := SiteSearchLinks(web, base, q);
    if links.Some? then Articles.FromArticles(JsonLd.Strict, web, links.value) else []
  }

  function SearchFn(web: Articles.Web, q: string): string -> seq<ClaimRecord> {
    base => SearchRecords(web, q, base)
  }

  /** `collected`: the listings first, then (for a non-empty query) the site searches. */
  function Collected(web: Articles.Web, q: string): seq<ClaimRecord> {
    Seqs.FlatMap(ListingSources, ListingFn(web)) +
    (if q != "" then Seqs.FlatMap(Seeds, SearchFn(web, q)) else [])
  }

  /** `(r.reviewUrl || r.title || "") + "|" + (r.reviewPublisher || "")` */
  function NigeriaKey(r: ClaimRecord): string {
    Or(r.reviewUrl, r.title) + "|" + r.reviewPublisher
  }

  /** `searchNigeriaClaims(query)` */
  function SearchNigeria(web: Articles.Web, q: string): seq<ClaimRecord> {
    FilterByQuery(q, Seqs.DedupBy(Collected(web, q), NigeriaKey))
  }

  method SearchNigeriaClaims(web: Articles.Web, query: string) returns (results: seq<ClaimRecord>)
    ensures results == SearchNigeria(web, query)
  {
    var collected := CollectListings(web, ListingSources);
    if query != "" {
      var searched := CollectSearches(web, Seeds, query);
      collected := collected + searched;
    } else {
      assert Collected(web, query) == collected + [];
    }
    assert collected == Collected(web, query);
    var unique := Seqs.KeepFirst(collected, NigeriaKey);
    assert unique == Seqs.DedupBy(Collected(web, query), NigeriaKey);
    results := FilterByQuery(query, unique);
  }

  /** Step 1, the loop over the listing pages; a listing or article that throws is skipped. */
  method CollectListings(web: Articles.Web, urls: seq<string>) returns (collected: seq<ClaimRecord>)
    ensures collected == Seqs.FlatMap(urls, ListingFn(web))
  {
    collected := [];
    for s := 0 to |urls|
      invariant collected == Seqs.FlatMap(urls[..s], ListingFn(web))
    {
      ListingStep(web, urls, s);
      var links := CrawlListing(web, urls[s]);
      if links.Some? {
        var items := Articles.CollectArticles(JsonLd.Strict, web, links.value);
        collected := collected + items;
      }
    }
    assert urls[..|urls|] == urls;
  }

  /** Step 2, the loop over the seeds' site searches. */
  method CollectSearches(web: Articles.Web, bases: seq<string>, q: string) returns (collected: seq<ClaimRecord>)
    ensures collected == Seqs.FlatMap(bases, SearchFn(web, q))
  {
    collected := [];
    for s := 0 to |bases|
      invariant collected == Seqs.FlatMap(bases[..s], SearchFn(web, q))
    {
      SearchStep(web, bases, q, s);
      var links := CrawlSiteSearch(web, bases[s], q);
      if links.Some? {
        var items := Articles.CollectArticles(JsonLd.Strict, web, links.value);
        collected := collected + items;
      }
    }
    assert bases[..|bases|] == bases;
  }

  lemma ListingStep(web: Articles.Web, urls: seq<string>, s: nat)
    requires s < |urls|
    ensures Seqs.FlatMap(urls[..s + 1], ListingFn(web)) == Seqs.FlatMap(urls[..s], ListingFn(web)) + ListingRecords(web, urls[s])
  {
    Seqs.FlatMapStep(urls, s, ListingFn(web));
  }

  lemma SearchStep(web: Articles.Web, bases: seq<string>, q: string, s: nat)
    requires s < |bases|
    ensures Seqs.FlatMap(bases[..s + 1], SearchFn(web, q)) == Seqs.FlatMap(bases[..s], SearchFn(web, q)) + SearchRecords(web, q, bases[s])
  {
    Seqs.FlatMapStep(bases, s, SearchFn(web, q));
  }

  /** Listing links are distinct, in first-seen order, at most 12, all from the page's hrefs. */
  lemma ListingLinksShape(web: Articles.Web, listUrl: string, html: string)
    requires web.fetchText(listUrl) == Some(html)
    ensures var hrefs := web.scan(Articles.ListingAnchor, html);
      ListingLinks(web, listUrl).Some? &&
      var links := ListingLinks(web, listUrl).value;
      |links| <= 12 &&
      (forall i, j | 0 <= i < j < |links| :: links[i] != links[j]) &&
      (forall u | u in links :: u in hrefs) &&
      Seqs.IsPrefix(links, Seqs.Distinct(hrefs)) &&
      (|Seqs.Distinct(hrefs)| <= 12 ==> links == Seqs.Distinct(hrefs))
  {
    Seqs.TakeDistinct(web.scan(Articles.ListingAnchor, html), ListingCap);
  }

  /**
   * Site-search links are distinct, in first-seen order, at most 10, from the
   * page at `base` without its trailing slashes, `/?s=` and the encoded query.
   */
  lemma SiteSearchLinksShape(web: Articles.Web, base: string, q: string, html: string)
    requires web.fetchText(SearchUrl(web, base, q)) == Some(html)
    ensures var hrefs := web.scan(Articles.SearchAnchor, html);
      SiteSearchLinks(web, base, q).Some? &&
      var links := SiteSearchLinks(web, base, q).value;
      |links| <= 10 &&
      (forall i, j | 0 <= i < j < |links| :: links[i] != links[j]) &&
      (forall u | u in links :: u in hrefs) &&
      Seqs.IsPrefix(links, Seqs.Distinct(hrefs)) &&
      (|Seqs.Distinct(hrefs)| <= 10 ==> links == Seqs.Distinct(hrefs))
    ensures SearchUrl(web, base, q) == Api.StripTrailingSlashes(base) + "/?s=" + web.encodeComponent(q)
  {
    Seqs.TakeDistinct(web.scan(Articles.SearchAnchor, html), SearchCap);
  }

  /** Without a query no site search is run: only the listings are collected. */
  lemma NoSiteSearchWithoutQuery(web: Articles.Web)
    ensures Collected(web, "") == Seqs.FlatMap(ListingSources, ListingFn(web))
    ensures SearchNigeria(web, "") == Seqs.DedupBy(Seqs.FlatMap(ListingSources, ListingFn(web)), NigeriaKey)
  {
    assert Collected(web, "") == Seqs.FlatMap(ListingSources, ListingFn(web)) + [];
  }

  /** A listing page that cannot be fetched adds nothing, and the later listings are still crawled. */
  lemma FailingListingSkipped(web: Articles.Web, pre: seq<string>, listUrl: string, post: seq<string>)
    requires web.fetchText(listUrl) == None
    ensures Seqs.FlatMap(pre + [listUrl] + post, ListingFn(web)) ==
      Seqs.FlatMap(pre, ListingFn(web)) + Seqs.FlatMap(post, ListingFn(web))
  {
    Seqs.FlatMapSkip(pre, listUrl, post, ListingFn(web));
  }

  /** Collected records follow source order, then link order. */
  lemma CollectedInOrder(web: Articles.Web, a: seq<string>, b: seq<string>)
    ensures Seqs.FlatMap(a + b, ListingFn(web)) == Seqs.FlatMap(a, ListingFn(web)) + Seqs.FlatMap(b, ListingFn(web))
  {
    Seqs.FlatMapAppend(a, b, ListingFn(web));
  }

  /** No two results share the key `(reviewUrl || title) | reviewPublisher`. */
  lemma SearchNigeriaUnique(web: Articles.Web, q: string)
    ensures Seqs.KeysUnique(SearchNigeria(web, q), NigeriaKey)
  {
    var d := Seqs.DedupBy(Collected(web, q), NigeriaKey);
    Seqs.DedupByUnique(Collected(web, q), NigeriaKey);
    if q != "" {
      Seqs.FilterKeysUnique(d, r => MatchesQuery(q, r), NigeriaKey);
    }
  }

  /**
   * Every result was collected; with a query, each one matches it; without, every
   * collected key is represented by its first record.
   */
  lemma SearchNigeriaSurvivors(web: Articles.Web, q: string)
    ensures forall r | r in SearchNigeria(web, q) :: r in Collected(web, q)
    ensures q != "" ==> forall r | r in SearchNigeria(web, q) :: MatchesQuery(q, r)
    ensures q == "" ==> Seqs.KeySet(SearchNigeria(web, q), NigeriaKey) == Seqs.KeySet(Collected(web, q), NigeriaKey)
  {
    var c := Collected(web, q);
    var d := Seqs.DedupBy(c, NigeriaKey);
    Seqs.DedupByFrom(c, NigeriaKey);
    Seqs.DedupByKeys(c, NigeriaKey);
    if q != "" {
      FilterSurvivors(q, d);
    }
  }

  /** The dedup keeps the first record of each key: records after one with the same key are dropped. */
  lemma LaterDuplicateDropped(a: seq<ClaimRecord>, r: ClaimRecord)
    requires NigeriaKey(r) in Seqs.KeySet(a, NigeriaKey)
    ensures Seqs.DedupBy(a + [r], NigeriaKey) == Seqs.DedupBy(a, NigeriaKey)
  {
    Seqs.DedupBySnoc(a, r, NigeriaKey);
  }

  const BannerText := "RoundScript API running. Try /api/search?q=example&lang=en or /api/ng-search?q=example"

  /** The `/api/ng-search` branch. */
  function NgSearch(req: Api.Request, web: Articles.Web): Api.Response {
    var q := Api.Param(req, "q");
    Api.Response(200, Api.Found(SearchResult(q, SearchNigeria(web, q))))
  }

  /** The router as written: the banner is tested against the stripped path "/". */
  function HandleAsWritten(req: Api.Request, key: string, google: Api.Google, web: Articles.Web): Api.Response {
    if req.verb == "OPTIONS" then Api.Preflight
    else
      var clean := Api.StripTrailingSlashes(req.path);
      if clean == "/" then Api.Response(200, Api.Banner(BannerText))
      else if clean == "/api/search" && req.verb == "GET" then Api.SearchEndpoint(req, key, google)
      else if clean == "/api/ng-search" && req.verb == "GET" then NgSearch(req, web)
      else Api.NotFound
  }

  /** The router with the banner on the root path, which strips to "". */
  function Handle(req: Api.Request, key: string, google: Api.Google, web: Articles.Web): Api.Response {
    if req.verb == "OPTIONS" then Api.Preflight
    else
      var clean := Api.StripTrailingSlashes(req.path);
      if clean == "" then Api.Response(200, Api.Banner(BannerText))
      else if clean == "/api/search" && req.verb == "GET" then Api.SearchEndpoint(req, key, google)
      else if clean == "/api/ng-search" && req.verb == "GET" then NgSearch(req, web)
      else Api.NotFound
  }

  /** As written, no path strips to "/", so the banner is never sent and `GET /` is 404. */
  lemma BannerUnreachable(req: Api.Request, key: string, google: Api.Google, web: Articles.Web)
    ensures HandleAsWritten(req, key, google, web).body != Api.Banner(BannerText)
    ensures req.verb == "GET" && req.path == "/" ==> HandleAsWritten(req, key, google, web) == Api.NotFound
  {
    if req.path == "/" {
      assert req.path[..|req.path| - 1] == "";
    }
  }

  /** With the root test on "", `GET /` (and `//`, and an empty path) gets the banner, and nothing else does. */
  lemma BannerOnRoot(req: Api.Request, key: string, google: Api.Google, web: Articles.Web)
    requires req.verb != "OPTIONS"
    ensures (forall k | 0 <= k < |req.path| :: req.path[k] == '/') <==>
      Handle(req, key, google, web) == Api.Response(200, Api.Banner(BannerText))
  {
    var clean := Api.StripTrailingSlashes(req.path);
    if !forall k | 0 <= k < |req.path| :: req.path[k] == '/' {
      var k :| 0 <= k < |req.path| && req.path[k] != '/';
      assert k < |clean|;
    }
  }

  /** A preflight is answered before any routing, whatever the path. */
  lemma OptionsFirst(req: Api.Request, key: string, google: Api.Google, web: Articles.Web)
    requires req.verb == "OPTIONS"
    ensures Handle(req, key, google, web) == Api.Preflight
    ensures HandleAsWritten(req, key, google, web) == Api.Preflight
  {
  }

  /** `GET /api/search`, with or without trailing slashes, is the Google endpoint, in both routers. */
  lemma SearchRoute(req: Api.Request, key: string, google: Api.Google, web: Articles.Web)
    requires req.verb == "GET"
    requires Api.StripTrailingSlashes(req.path) == "/api/search"
    ensures HandleAsWritten(req, key, google, web) == Api.SearchEndpoint(req, key, google)
    ensures Handle(req, key, google, web) == Api.SearchEndpoint(req, key, google)
  {
  }

  /** `GET /api/ng-search` answers 200 with `{ query, results }` for the regional search, in both routers. */
  lemma NgSearchRoute(req: Api.Request, key: string, google: Api.Google, web: Articles.Web)
    requires req.verb == "GET"
    requires Api.StripTrailingSlashes(req.path) == "/api/ng-search"
    ensures var q := Api.Param(req, "q");
      HandleAsWritten(req, key, google, web) == Api.Response(200, Api.Found(SearchResult(q, SearchNigeria(web, q))))
    ensures var q := Api.Param(req, "q");
      Handle(req, key, google, web) == Api.Response(200, Api.Found(SearchResult(q, SearchNigeria(web, q))))
  {
  }

  /**
   * Every other request is 404: as written that includes the root path,
   * whose stripped form "" matches no test; corrected, the root path is the
   * banner and everything else is 404.
   */
  lemma OtherwiseNotFound(req: Api.Request, key: string, google: Api.Google, web: Articles.Web)
    requires req.verb != "OPTIONS"
    requires !(req.verb == "GET" && Api.StripTrailingSlashes(req.path) in {"/api/search", "/api/ng-search"})
    ensures HandleAsWritten(req, key, google, web) == Api.NotFound
    ensures Api.StripTrailingSlashes(req.path) != "" ==> Handle(req, key, google, web) == Api.NotFound
  {
  }
}
