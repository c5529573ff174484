/**
 * worker/src/index_backup_2.js: the revision whose regional search crawls six
 * listing pages with the null-safe extractor, keys its dedup on
 * `reviewUrl || title`, and filters by `q` in the `/api/ng-search` handler.
 */
module WorkerBackup2 {
  import opened Js
  import opened Claims
  import Seqs
  import Api
  import JsonLd
  import Articles

  /** The listing pages, in crawl order. */
  const Seeds: seq<string> := [
    "https://dubawa.org/category/fact-check/",
    "https://africacheck.org/fact-checks",
    "https://factcheck.afp.com/AFP-Nigeria",
    "https://factcheck.thecable.ng/",
    "https://www.premiumtimesng.com/category/news/fact-checks",
    "https://factcheckhub.com/"]

  const ListingCap := 12

  /** What `new URL(m[1]).toString()` gives for each href, the ones where it throws dropped. */
  function Canonicals(web: Articles.Web, hrefs: seq<string>): seq<string> {
    Seqs.FlatMap(hrefs, CanonicalFn(web))
  }

  function CanonicalFn(web: Articles.Web): string -> seq<string> {
    h => var u := web.canonical(h); if u.Some? then [u.value] else []
  }

  /** `crawlListing(listUrl)`: None where `fetchText` throws. */
  function ListingLinks(web: Articles.Web, listUrl: string): Option<seq<string>> {
    match web.fetchText(listUrl)
    case None => None
    case Some(html) =>
      Some(Seqs.Take(Seqs.Distinct(Canonicals(web, web.scan(Articles.ListingAnchorAnyTail, html))), ListingCap))
  }

  /** The `links` Set loop, one `try { links.add(new URL(m[1]).toString()) } catch {}` per match. */
  method CrawlListing(web: Articles.Web, listUrl: string) returns (r: Option<seq<string>>)
    ensures r == ListingLinks(web, listUrl)
  {
    var html := web.fetchText(listUrl);
    if html.None? {
      return None;
    }
    var ms := web.scan(Articles.ListingAnchorAnyTail, html.value);
    var links: seq<string> := [];
    for i := 0 to |ms|
      invariant links == Seqs.Distinct(Canonicals(web, ms[..i]))
    {
      Seqs.FlatMapStep(ms, i, CanonicalFn(web));
      var u := web.canonical(ms[i]);
      if u.Some? {
        assert CanonicalFn(web)(ms[i]) == [u.value];
        assert Canonicals(web, ms[..i + 1]) == Canonicals(web, ms[..i]) + [u.value];
        Seqs.DistinctSnoc(Canonicals(web, ms[..i]), u.value);
        Seqs.DistinctMember(Canonicals(web, ms[..i]), u.value);
        if u.value !in links {
          links := links + [u.value];
        }
      } else {
        assert CanonicalFn(web)(ms[i]) == [];
        assert Canonicals(web, ms[..i + 1]) == Canonicals(web, ms[..i]) + [];
        assert Canonicals(web, ms[..i + 1]) == Canonicals(web, ms[..i]);
      }
    }
    assert ms[..|ms|] == ms;
    return Some(Seqs.Take(links, ListingCap));
  }

  /** What one listing adds to `collected`: its articles, read with the lenient extractor. */
  function ListingRecords(web: Articles.Web, listUrl: string): seq<ClaimRecord> {
    var links := ListingLinks(web, listUrl);
    if links.Some? then Articles.FromArticles(JsonLd.Lenient, web, links.value) else []
  }

  function ListingFn(web: Articles.Web): string -> seq<ClaimRecord> {
    listUrl => ListingRecords(web, listUrl)
  }

  /** `collected`: seed order, then link order. */
  function Collected(web: Articles.Web): seq<ClaimRecord> {
    Seqs.FlatMap(Seeds, ListingFn(web))
  }

  /** `r.reviewUrl || r.title` */
  function DedupKey(r: ClaimRecord): string {
    Or(r.reviewUrl, r.title)
  }

  /** `searchNigeriaClaims()` */
  function SearchNigeria(web: Articles.Web): seq<ClaimRecord> {
    Seqs.DedupBy(Collected(web), DedupKey)
  }

  method SearchNigeriaClaims(web: Articles.Web) returns (unique: seq<ClaimRecord>)
    ensures unique == SearchNigeria(web)
  {
    var collected := CollectListings(web, Seeds);
    unique := Seqs.KeepFirst(collected, DedupKey);
  }

  /** The loop over the seeds; a listing or article that throws is skipped. */
  method CollectListings(web: Articles.Web, urls: seq<string>) returns (collected: seq<ClaimRecord>)
    ensures collected == Seqs.FlatMap(urls, ListingFn(web))
  {
    collected := [];
    for s := 0 to |urls|
      invariant collected == Seqs.FlatMap(urls[..s], ListingFn(web))
    {
      Seqs.FlatMapStep(urls, s, ListingFn(web));
      var links := CrawlListing(web, urls[s]);
      if links.Some? {
        var items := Articles.CollectArticles(JsonLd.Lenient, web, links.value);
        collected := collected + items;
      }
    }
    assert urls[..|urls|] == urls;
  }

  /**
   * Listing links: distinct canonical URLs in first-seen order, at most 12;
   * an href whose URL construction throws contributes nothing.
   */
  lemma ListingLinksShape(web: Articles.Web, listUrl: string, html: string)
    requires web.fetchText(listUrl) == Some(html)
    ensures var cs := Canonicals(web, web.scan(Articles.ListingAnchorAnyTail, html));
      ListingLinks(web, listUrl).Some? &&
      var links := ListingLinks(web, listUrl).value;
      |links| <= 12 &&
      (forall i, j | 0 <= i < j < |links| :: links[i] != links[j]) &&
      (forall u | u in links :: u in cs) &&
      Seqs.IsPrefix(links, Seqs.Distinct(cs)) &&
      (|Seqs.Distinct(cs)| <= 12 ==> links == Seqs.Distinct(cs))
  {
    Seqs.TakeDistinct(Canonicals(web, web.scan(Articles.ListingAnchorAnyTail, html)), ListingCap);
  }

  /** Every canonical link is the URL of one of the hrefs, and a throwing href is dropped. */
  lemma CanonicalsFromHrefs(web: Articles.Web, pre: seq<string>, h: string, post: seq<string>)
    ensures web.canonical(h).None? ==>
      Canonicals(web, pre + [h] + post) == Canonicals(web, pre) + Canonicals(web, post)
    ensures web.canonical(h).Some? ==>
      Canonicals(web, pre + [h] + post) == Canonicals(web, pre) + [web.canonical(h).value] + Canonicals(web, post)
  {
    Seqs.FlatMapSnoc(pre, h, CanonicalFn(web));
    Seqs.FlatMapAppend(pre + [h], post, CanonicalFn(web));
  }

  /** A seed that cannot be fetched adds nothing, and the later seeds are still crawled. */
  lemma FailingSeedSkipped(web: Articles.Web, pre: seq<string>, listUrl: string, post: seq<string>)
    requires web.fetchText(listUrl) == None
    ensures Seqs.FlatMap(pre + [listUrl] + post, ListingFn(web)) ==
      Seqs.FlatMap(pre, ListingFn(web)) + Seqs.FlatMap(post, ListingFn(web))
  {
    Seqs.FlatMapSkip(pre, listUrl, post, ListingFn(web));
  }

  /** Records follow seed order, then link order. */
  lemma CollectedInOrder(web: Articles.Web, a: seq<string>, b: seq<string>)
    ensures Seqs.FlatMap(a + b, ListingFn(web)) == Seqs.FlatMap(a, ListingFn(web)) + Seqs.FlatMap(b, ListingFn(web))
  {
    Seqs.FlatMapAppend(a, b, ListingFn(web));
  }

  /** The dedup keeps one record per `reviewUrl || title`, the first, and loses no key. */
  lemma SearchNigeriaUnique(web: Articles.Web)
    ensures Seqs.KeysUnique(SearchNigeria(web), DedupKey)
    ensures Seqs.KeySet(SearchNigeria(web), DedupKey) == Seqs.KeySet(Collected(web), DedupKey)
    ensures forall r | r in SearchNigeria(web) :: r in Collected(web)
  {
    Seqs.DedupByUnique(Collected(web), DedupKey);
    Seqs.DedupByKeys(Collected(web), DedupKey);
    Seqs.DedupByFrom(Collected(web), DedupKey);
  }

  const BannerText := "RoundScript API is running. Try /api/search?q=example&lang=en or /api/ng-search?q=example"

  /** The `/api/ng-search` branch: the crawl ignores `q`; the handler filters by it. */
  function NgSearch(req: Api.Request, web: Articles.Web): Api.Response {
    var q := Api.Param(req, "q");
    Api.Response(200, Api.Found(SearchResult(q, FilterByQuery(q, SearchNigeria(web)))))
  }

  /** The router as written: the banner is tested against the stripped path "/". */
  function HandleAsWritten(req: Api.Request, key: string, google: Api.Google, web: Articles.Web): Api.Response {
    var clean := Api.StripTrailingSlashes(req.path);
    if req.verb == "OPTIONS" then Api.Preflight
    else if clean == "/" then Api.Response(200, Api.Banner(BannerText))
    else if clean == "/api/search" && req.verb == "GET" then Api.SearchEndpoint(req, key, google)
    else if clean == "/api/ng-search" && req.verb == "GET" then NgSearch(req, web)
    else Api.NotFound
  }

  /** The router with the banner on the root path, which strips to "". */
  function Handle(req: Api.Request, key: string, google: Api.Google, web: Articles.Web): Api.Response {
    var clean := Api.StripTrailingSlashes(req.path);
    if req.verb == "OPTIONS" then Api.Preflight
    else if clean == "" then Api.Response(200, Api.Banner(BannerText))
    else if clean == "/api/search" && req.verb == "GET" then Api.SearchEndpoint(req, key, google)
    else if clean == "/api/ng-search" && req.verb == "GET" then NgSearch(req, web)
    else Api.NotFound
  }

  /** As written, the banner is never sent and `GET /` is 404. */
  lemma BannerUnreachable(req: Api.Request, key: string, google: Api.Google, web: Articles.Web)
    ensures HandleAsWritten(req, key, google, web).body != Api.Banner(BannerText)
    ensures req.verb == "GET" && req.path == "/" ==> HandleAsWritten(req, key, google, web) == Api.NotFound
  {
    if req.path == "/" {
      assert req.path[..|req.path| - 1] == "";
    }
  }

  /** Corrected, `GET /` gets the banner. */
  lemma BannerOnRoot(req: Api.Request, key: string, google: Api.Google, web: Articles.Web)
    requires req.verb == "GET" && req.path == "/"
    ensures Handle(req, key, google, web) == Api.Response(200, Api.Banner(BannerText))
  {
    assert req.path[..|req.path| - 1] == "";
  }

  /** The ng-search answer of either router: 200 with `{ query, results }`, the results filtered by `q`. */
  ghost predicate FilteredAnswer(req: Api.Request, web: Articles.Web, res: Api.Response) {
    var q := Api.Param(req, "q");
    res.status == 200 && res.body.Found? && res.body.result.query == q &&
    (q == "" ==> res.body.result.results == SearchNigeria(web)) &&
    (q != "" ==> forall r :: r in res.body.result.results <==> r in SearchNigeria(web) && MatchesQuery(q, r))
  }

  /**
   * `GET /api/ng-search`, in both routers: with an empty `q` every
   * deduplicated record is returned; otherwise exactly those whose
   * lower-cased title or text contains the lower-cased `q`, in order.
   */
  lemma NgSearchFilter(req: Api.Request, key: string, google: Api.Google, web: Articles.Web)
    requires req.verb == "GET"
    requires Api.StripTrailingSlashes(req.path) == "/api/ng-search"
    ensures HandleAsWritten(req, key, google, web) == Handle(req, key, google, web) == NgSearch(req, web)
    ensures FilteredAnswer(req, web, Handle(req, key, google, web))
  {
    var q := Api.Param(req, "q");
    if q != "" {
      FilterSurvivors(q, SearchNigeria(web));
    }
  }

  /** A preflight is answered before any routing, in both routers. */
  lemma OptionsFirst(req: Api.Request, key: string, google: Api.Google, web: Articles.Web)
    requires req.verb == "OPTIONS"
    ensures HandleAsWritten(req, key, google, web) == Api.Preflight
    ensures Handle(req, key, google, web) == Api.Preflight
  {
  }

  /** `GET /api/search`, with or without trailing slashes, is the Google endpoint, in both routers. */
  lemma SearchRoute(req: Api.Request, key: string, google: Api.Google, web: Articles.Web)
    requires req.verb == "GET"
    requires Api.StripTrailingSlashes(req.path) == "/api/search"
    ensures HandleAsWritten(req, key, google, web) == Api.SearchEndpoint(req, key, google)
    ensures Handle(req, key, google, web) == Api.SearchEndpoint(req, key, google)
  {
  }

  /** Every other request is 404; as written that includes the root path. */
  lemma OtherwiseNotFound(req: Api.Request, key: string, google: Api.Google, web: Articles.Web)
    requires req.verb != "OPTIONS"
    requires !(req.verb == "GET" && Api.StripTrailingSlashes(req.path) in {"/api/search", "/api/ng-search"})
    ensures HandleAsWritten(req, key, google, web) == Api.NotFound
    ensures Api.StripTrailingSlashes(req.path) != "" ==> Handle(req, key, google, web) == Api.NotFound
  {
  }
}
