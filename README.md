# RoundScript fact-check search, modelled in Dafny

RoundScript takes a claim a user types in and looks for fact-checks of it. It has two sources. One is the Google Fact Check Tools `claims:search` API, reached through a Cloudflare worker. The other is a crawl of a fixed list of Nigerian fact-check sites, which reads the schema.org `ClaimReview` JSON-LD of their articles. The front end merges what comes back, shows it as a list, and writes a short video script from the results.

The model covers the three revisions of the worker and the six revisions of the front-end logic:

- **Worker, `worker/src/index.js`** (`Worker`). The router, the `/api/search` endpoint (`Api`) and the Google result normaliser (`Claims`). It also holds the regional crawler: the JSON-LD extractor (`JsonLd`), the article step (`Articles`), the listing and site-search crawls, dedup and the query filter.
- **Worker, `worker/src/index_backup.js`** (`WorkerBackup`). The first router, which has only the Google endpoint.
- **Worker, `worker/src/index_backup_2.js`** (`WorkerBackup2`). The crawler with canonical URLs, the null-safe extractor dialect, and the filter applied in the handler.
- **Front end, `docs/docs/app.js`, `docs/docs/app_backup.js`, `docs/docs/app_backup_2.js`** (`App`, `AppBackup`, `AppBackup2`). The smart search over languages and query variants, which all three share (`Smart`), the submit handlers and the scripts.
- **Front end, `docs/app.js`** (`Front`). The `api` helper, the fallback chain and the tagged script.
- **Front end, `docs/app_backup.js`** (`FrontBackup`). The five-bullet script, which `docs/docs/app_backup.js` repeats unchanged.
- **Front end, `main.js`** (`Legacy`). HTML escaping, the claim blocks and `renderResults`. `Legacy.RenderResults` is the page as written; `Legacy.RenderResultsIntended` is the page with the publisher's name (see "## Findings").

Two modules are shared helpers:

- `Js` models the JavaScript semantics the code relies on: JSON values, truthiness, `||`, `?.`, `for...of`, `trim`, `toLowerCase`, `includes` and `join`.
- `Seqs` holds the generic sequence operations: `Set` insertion order, keep-first dedup, `filter`, `slice` and flat-map.

Code that loops is modelled as a Dafny method over a loop with invariants, proved equal to a specification function. Such code includes the normaliser, the extractor's three nested loops, the crawl loops, the `seen`-set dedup, the smart search grid and the submit handlers. The source's promises are then proved as lemmas about those functions.

Everything outside the code is a parameter, and every such parameter gives None where the real call would throw:

- the network (`fetchText`, the upstream API, the front end's `fetch`);
- the regular-expression scans, `JSON.parse`, `new URL` and `encodeURIComponent`.

## Model

| member | source | states |
|---|---|---|
| Api.StripTrailingSlashes | worker/src/index.js:8 | The cleaned path is a prefix of the pathname, does not end in `/`, and only slashes were removed. |
| Api.StripIdempotent | worker/src/index.js:8 | Stripping the trailing slashes of an already stripped path changes nothing. |
| Api.MissingQueryFirst | worker/src/index.js:18-20 | A missing or empty `q` gets 400 "Missing q", whatever the key. |
| Api.MissingKey | worker/src/index.js:21-22 | If `q` is present but the API key is not, the answer is 500 "Missing FACTCHECK_API_KEY". |
| Api.RefusalsBeforeNetwork | worker/src/index.js:18-22 | Both refusals come before the upstream call: any two upstreams give the same answer. |
| Api.OneUpstreamCall | worker/src/index.js:24-36 | Only the one upstream query the request builds affects the answer. |
| Api.UpstreamParameters | worker/src/index.js:18-28 | The upstream query is `q`, with page size "10" and the key. `languageCode` is absent exactly for "auto", is "en" when `lang` is missing or empty, and is `lang` otherwise. |
| Api.UpstreamStatusPassedThrough | worker/src/index.js:31-34 | A non-ok upstream status and its body text are passed through unchanged. |
| Api.SearchDelivers | worker/src/index.js:35-36 | An ok payload gets 200 with the normalised result, which echoes `q`. |
| Api.SearchEndpoint | worker/src/index.js:17-37 | Definition of the `/api/search` branch; its properties are stated in Api.MissingQueryFirst, Api.MissingKey, Api.RefusalsBeforeNetwork, Api.UpstreamParameters, Api.UpstreamStatusPassedThrough and Api.SearchDelivers. |
| Api.UpstreamFor | worker/src/index.js:24-28 | Definition of the upstream `claims:search` query; its properties are stated in Api.UpstreamParameters and Api.OneUpstreamCall. |
| Claims.FirstOfPicks | worker/src/index.js:73-79 | An `a \|\| b \|\| ""` field takes the first truthy value, or "" when none is truthy. |
| Claims.NormalizeClaim | worker/src/index.js:70-80 | A claim yields a record exactly when it is not null (`c.text` throws on null). |
| Claims.NormalizeGoogleResults | worker/src/index.js:67-83 | The `for...of` loop gives exactly `NormalizeResults`: one record per claim, and a failure wherever the loop throws. |
| Claims.NormalizeOnePerClaim | worker/src/index.js:67-83 | With an array of non-null claims, the result echoes the query and holds one record per claim, in claim order, each built from the claim's first review. |
| Claims.NormalizeNoClaims | worker/src/index.js:69 | An absent or falsy `claims` gives an empty result list. |
| Claims.NormalizeFails | worker/src/index.js:69-73 | The normaliser fails exactly when `claims` is truthy but not iterable, or when one of the claims is null. |
| Claims.FirstReviewOnly | worker/src/index.js:71 | Only `claimReview[0]` is read: the reviews after it change nothing. |
| Claims.NoReviewBlank | worker/src/index.js:71-79 | A claim without reviews gets empty publisher, url, rating and title. |
| Claims.TitleChain | worker/src/index.js:71-79 | For any non-null claim and whatever else its first review carries: `title` is the review's truthy title, else its truthy url, else "". `reviewUrl`, `rating` and `reviewPublisher` are the truthy `url`, `textualRating` and `publisher.name`, else "". `text`, `claimant` and `claimDate` are their truthy source field, else "". |
| Claims.EarthIsFlat | worker/src/index.js:67-83 | The one-claim "the earth is flat" payload reviewed by Snopes as "False" normalises to a single record with exactly those fields. |
| Claims.EarthIsFlatRecord | worker/src/index.js:71-79 | The record of that one claim, field by field. |
| Claims.FilterEmptyQuery | worker/src/index.js:211-215 | An empty query keeps every record. |
| Claims.FilterSurvivors | worker/src/index.js:211-215 | With a query, a record survives exactly when its lower-cased title or text contains the lower-cased query. |
| Claims.FilterKeepsOrder | worker/src/index.js:211-215 | The filter keeps input order: it distributes over concatenation. |
| Claims.MatchIgnoresCase | worker/src/index.js:212-214 | A title equal to the query up to ASCII case matches. |
| Claims.FirstReview | worker/src/index.js:71 | Definition of `(c.claimReview \|\| [])[0] \|\| {}`; its properties are stated in Claims.FirstReviewOnly and Claims.NoReviewBlank. |
| Claims.RecordOf | worker/src/index.js:72-80 | Definition of the pushed record; its properties are stated in Claims.TitleChain, Claims.NoReviewBlank and Claims.EarthIsFlatRecord. |
| Claims.NormalizeResults | worker/src/index.js:67-83 | Definition of `normalizeGoogleResults`; its properties are stated in Claims.NormalizeGoogleResults, Claims.NormalizeOnePerClaim, Claims.NormalizeNoClaims, Claims.NormalizeFails and Claims.EarthIsFlat. |
| Claims.MatchesQuery | worker/src/index.js:212-214 | Definition of the filter condition; its properties are stated in Claims.FilterSurvivors and Claims.MatchIgnoresCase. |
| Claims.FilterByQuery | worker/src/index.js:211-215 | Definition of the query filter; its properties are stated in Claims.FilterEmptyQuery, Claims.FilterSurvivors and Claims.FilterKeepsOrder. |
| Js.Get | worker/src/index.js:104 | A property read gives a value exactly when the value is an object that has that key. |
| Js.OrJ | worker/src/index.js:69 | `a \|\| b` on JSON values is `a` when `a` is truthy, else `b`. |
| Js.Or | worker/src/index.js:18 | `a \|\| b` on strings is `a` when `a` is not empty and `b` otherwise, so it is empty exactly when both are. |
| Js.Iterate | worker/src/index.js:70 | `for...of` yields an array's items, or a string's characters one by one. Every other value throws. |
| Js.MapAll | worker/src/index.js:70-81 | A loop whose step may throw fails exactly when some step throws. Otherwise it gives one result per element, in order. |
| Js.Trim | worker/src/index.js:97 | The trimmed string is a slice of the input with only ECMAScript whitespace before and after it, and it neither starts nor ends with whitespace. It is the input itself when that was already trimmed. |
| Js.Lower | worker/src/index.js:212-214 | Lower-casing keeps the length and lower-cases each ASCII letter. |
| JsonLd.WalkGraphNodes | worker/src/index.js:103-117 | The loop over graph nodes gives exactly `WalkGraphs`. In the strict revision it stops at the first null node and keeps the records pushed before it. |
| JsonLd.WalkTopLevel | worker/src/index.js:100-118 | The loop over top-level items gives exactly `WalkItems`, with `@graph` flattened. It stops at the first throw. |
| JsonLd.ExtractClaimReviews | worker/src/index.js:92-122 | The scan over the `ld+json` blocks gives exactly `Extract`. Each block is parsed and walked inside its own `try`. |
| JsonLd.WalkGraphsStable | worker/src/index.js:98-119 | Once the graph walk has thrown, the nodes that follow change nothing. |
| JsonLd.WalkItemsStable | worker/src/index.js:98-119 | Once the item walk has thrown, the items that follow change nothing. |
| JsonLd.ClaimsOfNodes | worker/src/index.js:104-116 | Reference definition: the records of the `ClaimReview` nodes, in order. There are never more records than nodes. |
| JsonLd.ClaimsOfNodesAppend | worker/src/index.js:103 | The reference definition distributes over concatenation of node lists. |
| JsonLd.ClaimsOfNodesFromClaims | worker/src/index.js:104-106 | Every record of the reference definition comes from a `ClaimReview` node. |
| JsonLd.WalkGraphsComplete | worker/src/index_backup_2.js:121-136 | Without a throw, the graph walk emits exactly the claim nodes' records, in node order. That holds always with `?.`, and otherwise when there is no null node. |
| JsonLd.WalkGraphsThrow | worker/src/index.js:103-106 | Without `?.`, the first null node ends the block with the records of the nodes before it, and nothing after it counts. |
| JsonLd.WalkItemsReference | worker/src/index.js:100-118 | If no item walk throws, a block yields the records of the claim nodes among all its items, with `@graph` flattened, in order. |
| JsonLd.WalkGraphsOnlyClaims | worker/src/index.js:104-108 | Every record of a graph walk comes from a node whose `@type` is or includes "ClaimReview". |
| JsonLd.WalkItemsOnlyClaims | worker/src/index.js:100-108 | The same holds for an item walk. |
| JsonLd.ExtractOnlyClaims | worker/src/index.js:92-122 | The extractor emits records only for `ClaimReview` nodes. |
| JsonLd.ExtractAppend | worker/src/index.js:96 | Blocks are scanned in document order, and each contributes on its own. |
| JsonLd.ExtractSnoc | worker/src/index.js:96-120 | One more block appends exactly that block's records. |
| JsonLd.UnparsableBlockSkipped | worker/src/index.js:98-119 | A block that `JSON.parse` refuses contributes nothing, and the blocks after it are still scanned. |
| JsonLd.BlankBlockSkipped | worker/src/index_backup_2.js:114-115 | The lenient revision skips a block that is blank after `trim`, whatever the parser would say of it. |
| JsonLd.SilentBlock | worker/src/index.js:96-120 | A block that adds no records leaves the records of the other blocks as they were. |
| JsonLd.ExtractSingle | worker/src/index.js:92-122 | One block yields exactly that block's records. |
| JsonLd.NoBlocksNoRecords | worker/src/index.js:93-121 | A page without JSON-LD blocks yields no records. |
| JsonLd.OneValidOneUnrelated | worker/src/index.js:92-122 | A `ClaimReview` block next to a `WebPage` block gives exactly one record, from the first. |
| JsonLd.ExtractPair | worker/src/index.js:96-120 | Two blocks yield the first block's records, then the second's. |
| JsonLd.BlockOfNode | worker/src/index.js:97-117 | A block holding one object without `@graph` adds that node's record exactly when it is a `ClaimReview`. |
| JsonLd.SingleNode | worker/src/index.js:102 | A top-level object without `@graph` is its own single node. |
| JsonLd.NullNodeContrast | worker/src/index_backup_2.js:120-123 | In `[null, c]` the strict revision throws at null and loses `c`, while the lenient one keeps `c`. In `[c, null]` both keep `c`. |
| JsonLd.LenientReviewUrl | worker/src/index_backup_2.js:131 | With a page URL, `reviewUrl` is the node's url when that is a non-empty string, and the page URL when the url is falsy. |
| JsonLd.IsClaimType | worker/src/index.js:104-106 | Definition of the `@type` test; its properties are stated in JsonLd.ExtractOnlyClaims, JsonLd.BlockOfNode and JsonLd.OneValidOneUnrelated. |
| JsonLd.ClaimOf | worker/src/index.js:107-116 | Definition of the record of a ClaimReview node; its properties are stated in JsonLd.BlockOfNode, JsonLd.ClaimsOfNodesFromClaims and JsonLd.LenientReviewUrl. |
| JsonLd.GraphsOf | worker/src/index.js:102 | Definition of `it['@graph'] ? it['@graph'] : [it]`; its properties are stated in JsonLd.SingleNode and JsonLd.WalkItemsReference. |
| JsonLd.WalkGraphs | worker/src/index.js:103-117 | Definition of the node loop; its properties are stated in JsonLd.WalkGraphNodes, JsonLd.WalkGraphsComplete, JsonLd.WalkGraphsThrow, JsonLd.WalkGraphsStable, JsonLd.WalkGraphsOnlyClaims and JsonLd.NullNodeContrast. |
| JsonLd.WalkItems | worker/src/index.js:100-118 | Definition of the item loop; its properties are stated in JsonLd.WalkTopLevel, JsonLd.WalkItemsReference, JsonLd.WalkItemsStable and JsonLd.WalkItemsOnlyClaims. |
| JsonLd.BlockRecords | worker/src/index.js:97-119 | Definition of what one block adds; its properties are stated in JsonLd.UnparsableBlockSkipped, JsonLd.BlankBlockSkipped and JsonLd.BlockOfNode. |
| JsonLd.Extract | worker/src/index.js:92-122 | Definition of `extractJsonLdClaimReview`; its properties are stated in JsonLd.ExtractClaimReviews, JsonLd.ExtractAppend, JsonLd.ExtractSnoc, JsonLd.ExtractOnlyClaims, JsonLd.SilentBlock, JsonLd.ExtractSingle, JsonLd.NoBlocksNoRecords and JsonLd.ExtractPair. |
| Articles.LineEnd | worker/src/index.js:139 | The index where `.*` stops: the first line terminator at or after `k`, or the end of the string. |
| Articles.FirstPipeMatch | worker/src/index.js:139 | The leftmost index where `\s+\\|` matches, and no match before it. When there is none, no index matches. |
| Articles.Backfill | worker/src/index.js:136 | There are as many records as before, and each empty `reviewUrl` is replaced by the article URL. All other fields are unchanged. |
| Articles.FetchClaimReviewsFromArticle | worker/src/index.js:133-141 | The method gives exactly `ArticleRecords`: the back-filled JSON-LD records, or else the title fallback. It fails where the fetch or `new URL` throws. |
| Articles.CollectArticles | worker/src/index.js:179-184 | The loop over links gives exactly `FromArticles`: each article's records in link order, with an article that throws skipped. |
| Articles.ArticleWithClaims | worker/src/index.js:135-136 | With JSON-LD records on the page, there are the same number of records, and each differs from its original only in `reviewUrl`. With a non-empty URL, no `reviewUrl` is empty. |
| Articles.ArticleFallback | worker/src/index.js:137-140 | Without JSON-LD records there is exactly one record: the page title, the host as publisher, the article URL, and empty text and rating. |
| Articles.ArticleUnreachable | worker/src/index.js:86-89 | A page that cannot be fetched throws. |
| Articles.CutBeforeSuffix | worker/src/index.js:139 | `title + " \|" + rest` is cut back to `title` when `title` has no `\|`, does not end in whitespace, and `rest` stays on one line. |
| Articles.NoPipeInTitle | worker/src/index.js:139 | With no `\|` before a non-space character, `\s+\\|` cannot match there. |
| Articles.NoEarlierMatch | worker/src/index.js:139 | The leftmost match is the first index where the pattern matches. |
| Articles.LineEndAtEnd | worker/src/index.js:139 | On a single line, `.*` runs to the end of the string. |
| Articles.TitleWithoutSuffix | worker/src/index.js:139 | A title in which `\s+\\|` never matches is only trimmed. |
| Articles.NoMatchNone | worker/src/index.js:139 | If `\s+\\|` matches nowhere, there is no leftmost match. |
| Articles.NoTitleTag | worker/src/index.js:138-139 | A page without `<title>` gives an empty title. |
| Articles.FromArticlesAppend | worker/src/index.js:179-184 | Articles are taken in link order, each on its own. |
| Articles.FailingArticleSkipped | worker/src/index.js:180-183 | An article that throws adds nothing, and the links after it are still visited. |
| Articles.CutAtPipe | worker/src/index.js:139 | Definition of `replace(/\s+\\|.*/,"")`; its properties are stated in Articles.FirstPipeMatch, Articles.LineEnd, Articles.CutBeforeSuffix, Articles.NoPipeInTitle and Articles.TitleWithoutSuffix. |
| Articles.PageTitle | worker/src/index.js:138-139 | Definition of the fallback title; its properties are stated in Articles.NoTitleTag and Articles.TitleWithoutSuffix. |
| Articles.TitleRecord | worker/src/index.js:140 | Definition of the fallback record; its properties are stated in Articles.ArticleFallback. |
| Articles.ArticleRecords | worker/src/index.js:133-141 | Definition of `fetchClaimReviewsFromArticle`; its properties are stated in Articles.FetchClaimReviewsFromArticle, Articles.ArticleWithClaims, Articles.ArticleFallback and Articles.ArticleUnreachable. |
| Articles.FromArticles | worker/src/index.js:179-184 | Definition of the article loop of one page; its properties are stated in Articles.CollectArticles, Articles.FromArticlesAppend and Articles.FailingArticleSkipped. |
| Worker.CrawlListing | worker/src/index.js:124-131 | The method gives exactly `ListingLinks`: the distinct hrefs in first-seen order, cut to 12. It fails where the fetch throws. |
| Worker.CrawlSiteSearch | worker/src/index.js:143-151 | The method gives exactly `SiteSearchLinks`: the distinct dated hrefs of the search page, cut to 10. |
| Worker.SearchNigeriaClaims | worker/src/index.js:153-218 | The method gives exactly `SearchNigeria`: the listings, then the site searches when there is a query, deduplicated by key and then filtered by the query. |
| Worker.CollectListings | worker/src/index.js:176-186 | The loop gives each listing's article records in source order. A listing that throws adds nothing. |
| Worker.CollectSearches | worker/src/index.js:190-200 | The loop gives each seed's site-search records in seed order. A search that throws adds nothing. |
| Worker.ListingStep | worker/src/index.js:176-186 | One more listing appends exactly that listing's records. |
| Worker.SearchStep | worker/src/index.js:190-200 | One more seed appends exactly that seed's records. |
| Worker.ListingLinksShape | worker/src/index.js:126-130 | Listing links are distinct, at most 12, and all among the page's hrefs. They are a prefix of the distinct hrefs in first-seen order, and are all of them when there are at most 12. |
| Worker.SiteSearchLinksShape | worker/src/index.js:144-150 | The search URL is the base without trailing slashes, then `/?s=`, then the encoded query. Its links are distinct, at most 10, and in first-seen order. |
| Worker.NoSiteSearchWithoutQuery | worker/src/index.js:189 | Without a query no site search runs: only the listings are collected, deduplicated and not filtered. |
| Worker.FailingListingSkipped | worker/src/index.js:177-185 | A listing page that cannot be fetched adds nothing, and the later listings are still crawled. |
| Worker.CollectedInOrder | worker/src/index.js:176-186 | Collected records follow source order, then link order. |
| Worker.SearchNigeriaUnique | worker/src/index.js:204-208 | No two results share the key `(reviewUrl \|\| title) \| reviewPublisher`. |
| Worker.SearchNigeriaSurvivors | worker/src/index.js:204-217 | Every result was collected. With a query, each result matches it. Without one, every collected key keeps a record. |
| Worker.LaterDuplicateDropped | worker/src/index.js:205-208 | A record whose key was already seen is dropped: the first record of each key is kept. |
| Worker.BannerUnreachable | worker/src/index.js:8-15 | As written, no path strips to "/": the banner is never sent, and `GET /` gets 404. |
| Worker.BannerOnRoot | worker/src/index.js:11-15 | With the root test on "", a request gets the banner exactly when its path consists only of slashes. |
| Worker.OptionsFirst | worker/src/index.js:7 | A preflight is answered before any routing, whatever the path, in the router as written and in the corrected one. |
| Worker.SearchRoute | worker/src/index.js:17-37 | `GET /api/search`, with or without trailing slashes, is the Google endpoint, in the router as written and in the corrected one. |
| Worker.NgSearchRoute | worker/src/index.js:39-43 | `GET /api/ng-search` answers 200 with `{ query, results }` of the regional search for `q`, in the router as written and in the corrected one. |
| Worker.OtherwiseNotFound | worker/src/index.js:45 | As written, every request other than a preflight, `GET /api/search` and `GET /api/ng-search` gets 404, the root path included. Corrected, the same holds for every path but the root. |
| Worker.ListingLinks | worker/src/index.js:124-131 | Definition of `crawlListing`; its properties are stated in Worker.CrawlListing, Worker.ListingLinksShape and Worker.FailingListingSkipped. |
| Worker.SiteSearchLinks | worker/src/index.js:143-151 | Definition of `crawlSiteSearch`; its properties are stated in Worker.CrawlSiteSearch and Worker.SiteSearchLinksShape. |
| Worker.Collected | worker/src/index.js:173-201 | Definition of `collected`; its properties are stated in Worker.CollectListings, Worker.CollectSearches, Worker.CollectedInOrder and Worker.NoSiteSearchWithoutQuery. |
| Worker.NigeriaKey | worker/src/index.js:206 | Definition of the dedup key; its properties are stated in Worker.SearchNigeriaUnique and Worker.LaterDuplicateDropped. |
| Worker.SearchNigeria | worker/src/index.js:153-218 | Definition of `searchNigeriaClaims`; its properties are stated in Worker.SearchNigeriaClaims, Worker.SearchNigeriaUnique, Worker.SearchNigeriaSurvivors and Worker.NoSiteSearchWithoutQuery. |
| Worker.NgSearch | worker/src/index.js:39-43 | Definition of the `/api/ng-search` branch; its properties are stated in Worker.NgSearchRoute. |
| Worker.HandleAsWritten | worker/src/index.js:4-49 | Definition of the router as written; its properties are stated in Worker.BannerUnreachable, Worker.OptionsFirst, Worker.SearchRoute, Worker.NgSearchRoute and Worker.OtherwiseNotFound. |
| Worker.Handle | worker/src/index.js:4-49 | Definition of the router with the banner on the root path; its properties are stated in Worker.BannerOnRoot, Worker.OptionsFirst, Worker.SearchRoute, Worker.NgSearchRoute and Worker.OtherwiseNotFound. |
| WorkerBackup.Handle | worker/src/index_backup.js:11-43 | A preflight comes first. Then exactly `GET /api/search` reaches the Google endpoint, and everything else is 404. |
| WorkerBackup.OnlySearchRoute | worker/src/index_backup.js:16-43 | The only non-404 route, besides the preflight, is `GET /api/search`. |
| WorkerBackup.TrailingSlashContrast | worker/src/index_backup.js:16 | Trailing slashes are not stripped: `GET /api/search/` is 404 here, while the later revision routes it to the Google endpoint. |
| WorkerBackup2.CrawlListing | worker/src/index_backup_2.js:143-155 | The loop gives exactly `ListingLinks`: the distinct canonical URLs of the hrefs, in first-seen order, cut to 12. An href whose `new URL` throws is dropped. |
| WorkerBackup2.SearchNigeriaClaims | worker/src/index_backup_2.js:166-196 | The method gives exactly `SearchNigeria`: the six listings, deduplicated on `reviewUrl \|\| title`. |
| WorkerBackup2.CollectListings | worker/src/index_backup_2.js:176-186 | The loop gives each seed's article records in seed order. A seed that throws adds nothing. |
| WorkerBackup2.ListingLinksShape | worker/src/index_backup_2.js:145-154 | Listing links are distinct, at most 12, and all canonical URLs of hrefs. They are a prefix of those URLs deduplicated in order. |
| WorkerBackup2.CanonicalsFromHrefs | worker/src/index_backup_2.js:148-153 | Each href contributes its canonical URL, or nothing where `new URL` throws. |
| WorkerBackup2.FailingSeedSkipped | worker/src/index_backup_2.js:177-185 | A seed that cannot be fetched adds nothing, and the later seeds are still crawled. |
| WorkerBackup2.CollectedInOrder | worker/src/index_backup_2.js:176-186 | Records follow seed order, then link order. |
| WorkerBackup2.SearchNigeriaUnique | worker/src/index_backup_2.js:188-195 | Results have unique keys, lose no collected key, and were all collected. |
| WorkerBackup2.BannerUnreachable | worker/src/index_backup_2.js:12-24 | As written, the banner is never sent, and `GET /` gets 404. |
| WorkerBackup2.BannerOnRoot | worker/src/index_backup_2.js:20-24 | With the root test on "", `GET /` gets the banner. |
| WorkerBackup2.NgSearchFilter | worker/src/index_backup_2.js:50-57 | `GET /api/ng-search` gets the same answer from both routers: 200, echoing `q`. With an empty `q` it returns every deduplicated record; otherwise exactly those that match `q`. |
| WorkerBackup2.OptionsFirst | worker/src/index_backup_2.js:15-17 | A preflight is answered before any routing, in both routers. |
| WorkerBackup2.SearchRoute | worker/src/index_backup_2.js:26-48 | `GET /api/search`, with or without trailing slashes, is the Google endpoint, in both routers. |
| WorkerBackup2.OtherwiseNotFound | worker/src/index_backup_2.js:60 | Every other request is 404 in the router as written, the root path included; in the corrected router every other request but the root path is. |
| WorkerBackup2.Canonicals | worker/src/index_backup_2.js:148-153 | Definition of the `new URL(m[1]).toString()` loop; its properties are stated in WorkerBackup2.CanonicalsFromHrefs. |
| WorkerBackup2.ListingLinks | worker/src/index_backup_2.js:143-155 | Definition of `crawlListing`; its properties are stated in WorkerBackup2.CrawlListing and WorkerBackup2.ListingLinksShape. |
| WorkerBackup2.Collected | worker/src/index_backup_2.js:175-186 | Definition of `collected`; its properties are stated in WorkerBackup2.CollectListings, WorkerBackup2.FailingSeedSkipped and WorkerBackup2.CollectedInOrder. |
| WorkerBackup2.DedupKey | worker/src/index_backup_2.js:190 | Definition of the dedup key; its properties are stated in WorkerBackup2.SearchNigeriaUnique. |
| WorkerBackup2.SearchNigeria | worker/src/index_backup_2.js:166-196 | Definition of `searchNigeriaClaims`; its properties are stated in WorkerBackup2.SearchNigeriaClaims and WorkerBackup2.SearchNigeriaUnique. |
| WorkerBackup2.NgSearch | worker/src/index_backup_2.js:50-58 | Definition of the `/api/ng-search` branch; its properties are stated in WorkerBackup2.NgSearchFilter. |
| WorkerBackup2.HandleAsWritten | worker/src/index_backup_2.js:9-64 | Definition of the router as written; its properties are stated in WorkerBackup2.BannerUnreachable, WorkerBackup2.OptionsFirst, WorkerBackup2.SearchRoute, WorkerBackup2.NgSearchFilter and WorkerBackup2.OtherwiseNotFound. |
| WorkerBackup2.Handle | worker/src/index_backup_2.js:9-64 | Definition of the router with the banner on the root path; its properties are stated in WorkerBackup2.BannerOnRoot, WorkerBackup2.OptionsFirst, WorkerBackup2.SearchRoute, WorkerBackup2.NgSearchFilter and WorkerBackup2.OtherwiseNotFound. |
| Seqs.Take | worker/src/index.js:130 | `slice(0, n)` is the first `min(n, \|s\|)` elements. |
| Seqs.InsertAll | worker/src/index.js:126-130 | Filling a `Set` and spreading it gives the distinct elements in first-insertion order. |
| Seqs.DistinctSnoc | worker/src/index.js:129 | `add` of a new element appends it, and `add` of a present one changes nothing. |
| Seqs.TakeDistinct | worker/src/index.js:126-130 | The first `n` distinct elements are distinct, drawn from the input, and a prefix of all distinct elements. They are all of them when there are at most `n`. |
| Seqs.KeepFirst | worker/src/index.js:204-208 | The `seen`-set filter gives exactly `DedupBy`, which keeps the first element of each key. |
| Seqs.DedupByKeys | worker/src/index.js:204-208 | Deduplication keeps every key that occurs in the input. |
| Seqs.DedupByUnique | worker/src/index.js:204-208 | Deduplication leaves no repeated key. |
| Seqs.DedupByFrom | worker/src/index.js:204-208 | Every kept element comes from the input, and there are never more of them than inputs. |
| Seqs.DedupByPrefix | worker/src/index.js:204-208 | Deduplicating a longer input never drops or reorders what the shorter input kept. |
| Seqs.DedupByIdentical | worker/src/index.js:204-208 | An input without repeated keys is left unchanged. |
| Seqs.DedupBySubsumed | worker/src/index.js:204-208 | Elements whose keys were all seen already add nothing. |
| Seqs.DedupByKeepsFirst | worker/src/index.js:204-208 | The first element with a given key is kept. |
| Seqs.DedupBySnoc | worker/src/index.js:207 | An element with a fresh key is appended, and one with a seen key is dropped. |
| Seqs.FilterMembers | worker/src/index.js:211-215 | `filter` keeps exactly the elements that satisfy the predicate, and never lengthens the input. |
| Seqs.FilterAppend | worker/src/index.js:211-215 | `filter` distributes over concatenation, so it keeps order. |
| Seqs.FilterKeysUnique | worker/src/index.js:211-215 | Filtering keeps keys unique. |
| Smart.Row | docs/docs/app.js:47-48 | One language's pairs are the variants in order, each paired with that language. |
| Smart.Aggregate | docs/docs/app.js:45-60 | The nested loops with the early return give exactly the `aggregated` of `Run` over the language-by-variant grid. |
| Smart.ScanRow | docs/docs/app.js:47-58 | The inner loop carries the loop state from the pairs before it to the state after this row. `halted` is the early return. |
| Smart.SmartFactChecks | docs/docs/app.js:23-61 | Gives `{ query, results }`, whose results are the aggregate of the 3 languages by 6 variants grid. |
| Smart.RunSnoc | docs/docs/app.js:46-59 | One more pair is one more loop step. |
| Smart.RowStep | docs/docs/app.js:47-58 | One more variant of a row is one more step. |
| Smart.RowHalt | docs/docs/app.js:55 | Once stopped inside a row, the rest of the row changes nothing. |
| Smart.RowSplit | docs/docs/app.js:47 | A row splits at any variant into the pairs before and after it. |
| Smart.GridHalt | docs/docs/app.js:55 | Once stopped after a language, the later languages change nothing. |
| Smart.RowSnoc | docs/docs/app.js:47 | A row of one more variant ends with that variant's pair. |
| Smart.GridSnoc | docs/docs/app.js:46-47 | A grid of one more language ends with that language's row. |
| Smart.GridSplit | docs/docs/app.js:46-47 | The grid seen from row `i`, column `j`: the rows before, then the rest of row `i`, then the rows after. |
| Smart.RunStable | docs/docs/app.js:55 | Once stopped, later pairs are not attempted and nothing changes. |
| Smart.RunAttempts | docs/docs/app.js:48-52 | `tried` holds exactly the keys of the attempts. No key is attempted twice, and every attempt is a grid pair. |
| Smart.GridShape | docs/docs/app.js:35-43 | The grid has 18 pairs: each of the three languages in order, with each of the six variants in order. |
| Smart.AtMostEighteen | docs/docs/app.js:46-59 | At most 18 calls are made, each pair at most once. |
| Smart.FirstAttempt | docs/docs/app.js:35-52 | The first call is the original query in the selected language, or English when none is selected. |
| Smart.RunUnique | docs/docs/app.js:25-33 | `aggregated` never holds two records with the same `title\|reviewUrl`. |
| Smart.StepGrows | docs/docs/app.js:54 | A merge never removes or reorders what `aggregated` already holds. |
| Smart.RunGrows | docs/docs/app.js:45-59 | Later attempts never remove or reorder earlier results. |
| Smart.FailedAttempt | docs/docs/app.js:53-57 | A thrown or empty attempt leaves `aggregated` unchanged and does not stop the search. |
| Smart.AllTriedUnlessStopped | docs/docs/app.js:46-60 | A search that did not stop has tried every pair of the grid. |
| Smart.StopsAtThreshold | docs/docs/app.js:55 | The search stops exactly when `aggregated` reaches the threshold. If it did not stop, it holds fewer records than the threshold. |
| Smart.Dedup | docs/docs/app.js:25-33 | Definition of `dedup`; its properties are stated in Smart.RunUnique, AppBackup2.DedupResults and AppBackup2.DedupKeepsFirst. |
| Smart.LangOrder | docs/docs/app.js:35 | Definition of `langOrder`; its properties are stated in Smart.GridShape and Smart.FirstAttempt. |
| Smart.Variants | docs/docs/app.js:36-43 | Definition of `variants`; its properties are stated in Smart.GridShape and Smart.FirstAttempt. |
| Smart.Grid | docs/docs/app.js:46-47 | Definition of the nested loop order; its properties are stated in Smart.GridShape, Smart.GridSnoc, Smart.GridSplit and Smart.AtMostEighteen. |
| Smart.Step | docs/docs/app.js:48-57 | Definition of one inner iteration; its properties are stated in Smart.RunSnoc, Smart.StepGrows and Smart.FailedAttempt. |
| Smart.Run | docs/docs/app.js:45-59 | Definition of the loops over the grid; its properties are stated in Smart.Aggregate, Smart.RunStable, Smart.RunAttempts, Smart.RunUnique, Smart.RunGrows, Smart.AllTriedUnlessStopped and Smart.StopsAtThreshold. |
| Smart.SmartResults | docs/docs/app.js:23-61 | Definition of the results of `smartFactChecks`; its properties are stated in Smart.SmartFactChecks and Smart.AtMostEighteen. |
| AppBackup2.DedupResults | docs/docs/app_backup_2.js:23-31 | The `seen`-set filter gives exactly `Smart.Dedup`, which keeps the first record per `title\|reviewUrl`. |
| AppBackup2.DedupKeepsFirst | docs/docs/app_backup_2.js:23-31 | Kept records come from the input, no two share a key, and every key survives. The record kept for a key is its first occurrence. |
| AppBackup2.SmartFactChecks | docs/docs/app_backup_2.js:33-76 | The result is the regional records when Nigeria mode finds some, and otherwise the grid aggregate. The global calls made are none in the first case and the grid's attempts in the second. |
| AppBackup2.Grid | docs/docs/app_backup_2.js:58-72 | The nested loops, left by the inner and then the outer `break`, give exactly the `aggregated` of `Run` with threshold 6. |
| AppBackup2.ScanRow | docs/docs/app_backup_2.js:59-70 | The inner loop carries the loop state across one row. It breaks exactly when six results are in. |
| AppBackup2.RegionalWins | docs/docs/app_backup_2.js:36-46 | In Nigeria mode, regional results mean no global variant is tried. The result is the deduplicated regional records, and it is not empty. |
| AppBackup2.RegionalFailureSwallowed | docs/docs/app_backup_2.js:37-42 | A regional call that throws or finds nothing is swallowed: results and calls are those of the mode without it. |
| AppBackup2.ScriptLayout | docs/docs/app_backup_2.js:79-101 | The script is the fixed opening, then the bullets of the first five results, then the fixed closing. The bullet block is empty exactly when there are no results, and the script starts with the HOOK line. |
| AppBackup2.Prelude | docs/docs/app_backup_2.js:35-43 | Definition of the regional step; its properties are stated in AppBackup2.RegionalWins and AppBackup2.RegionalFailureSwallowed. |
| AppBackup2.Results | docs/docs/app_backup_2.js:33-76 | Definition of the results of `smartFactChecks`; its properties are stated in AppBackup2.SmartFactChecks, AppBackup2.RegionalWins and AppBackup2.RegionalFailureSwallowed. |
| AppBackup2.BuildScript | docs/docs/app_backup_2.js:79-101 | Definition of `buildScript`; its properties are stated in AppBackup2.ScriptLayout. |
| AppBackup.SmartFactChecks | docs/docs/app_backup.js:23-69 | Gives `{ query, results }`, the grid aggregate with the early return at five results. |
| AppBackup.Aggregation | docs/docs/app_backup.js:48-68 | At most 18 calls are made, no pair twice, and no two results share `title\|reviewUrl`. The search returns early exactly when five or more results are in, and otherwise only after trying every pair. |
| AppBackup.EarlierKept | docs/docs/app_backup.js:57 | What the first `n` pairs collected is never removed or reordered by the rest. |
| Script.Part | docs/docs/app.js:66-68 | An optional part is empty exactly when its field is, and is otherwise the field between its delimiters. |
| Script.SourceBullet | docs/docs/app.js:65-69 | A bullet starts with "- " and then the name. The ` (rating)` and ` — publisher` parts follow at their offsets when present. It ends with `\nSource: url` when there is a url. Its length is the sum of the parts, so an absent field adds nothing, and it is just "- name" when all three fields are empty. |
| Script.Bullets | docs/docs/app.js:65-70 | The bullets are the first `min(cap, n)` results, in order, each mapped to its line. |
| Script.BulletsEmpty | docs/docs/app_backup_2.js:80-85 | The joined bullets are empty exactly when there are no results. |
| Script.JoinAround | docs/docs/app_backup_2.js:87-100 | Joined, the fixed lines, the bullet block and the fixed lines are the three joined pieces with one newline between each. |
| Script.JoinSplice | docs/app.js:36-50 | Fixed lines, then a possibly empty run of variable lines, then fixed lines: joined, there is one separator before each variable line. |
| Script.JoinStartsWith | docs/docs/app.js:72-85 | A joined array starts with its first line. |
| FrontBackup.ScriptLayout | docs/app_backup.js:13-35 | The script is the fixed opening, then the bullets of the first five results (`title \|\| text` with its optional parts), then the fixed closing. The bullet block is empty exactly when there are no results, and the script starts with the HOOK line. |
| FrontBackup.BuildScript | docs/app_backup.js:13-35 | Definition of `buildScript`; its properties are stated in FrontBackup.ScriptLayout and Script.SourceBullet. |
| App.Label | docs/docs/app.js:69 | The label is the title, else the text, else "Untitled", and is never empty. |
| App.ScriptLayout | docs/docs/app.js:64-86 | The script is the fixed opening, then the findings, then the fixed closing, and starts with the HOOK line. The findings are the bullets of the first six results, or the "No verified reviews" line exactly when there are none. |
| App.BadgeOf | docs/docs/app.js:104-109 | The badge is "Fact-Check" exactly when the rating is non-blank after `trim`. |
| App.BlankRatingIsRelated | docs/docs/app.js:105 | A rating of only whitespace still gets the "Related Article" badge. |
| App.SubmitSearch | docs/docs/app.js:143-183 | The handler, with `merged.results` reassigned along the way, gives exactly `Submit`: the calls made, in order, and what the page shows. |
| App.BlankQueryIgnored | docs/docs/app.js:145-146 | A blank query does nothing and calls nothing. Any other query makes one or two calls. |
| App.RegionalFirst | docs/docs/app.js:155-163 | In Nigeria mode the regional endpoint is asked first, and the variant grid runs exactly when it answered with no results. Regional results are shown as they came. |
| App.GlobalFirst | docs/docs/app.js:164-174 | Otherwise the grid runs first, and the regional endpoint is asked exactly when the grid found nothing. |
| App.FailsOnlyOnRegionalError | docs/docs/app.js:152-182 | The error status is shown exactly when `fetchNigeria` was called and threw. |
| App.TrimTwice | docs/docs/app.js:145 | Trimming an already trimmed query changes nothing. |
| App.BuildScript | docs/docs/app.js:64-86 | Definition of `buildScript`; its properties are stated in App.ScriptLayout and Script.SourceBullet. |
| App.Submit | docs/docs/app.js:143-183 | Definition of the submit handler; its properties are stated in App.SubmitSearch, App.BlankQueryIgnored, App.RegionalFirst, App.GlobalFirst and App.FailsOnlyOnRegionalError. |
| Front.ApiParamsNonNull | docs/app.js:4 | Exactly the parameters whose value is not null are set, each to `String(v)`, so there are never more query pairs than parameters. |
| Front.CallParams | docs/app.js:82-95 | The handler's requests pass only strings, so `q` and, for a search, `lang` are always set. |
| Front.VariantCalls | docs/app.js:90-95 | One search per variant, in order, each with `lang: "auto"`. |
| Front.TryCallsOrder | docs/app.js:94-97 | Requests are made in order, one each, until the first non-empty answer or the first failure. Every request before the last answered with no results. A hit's results are the last answer, a throw is the last request failing, and a miss means every request was made and answered empty. |
| Front.SubmitSearch | docs/app.js:71-112 | The handler, with `data` reassigned and the variant loop left by `break`, gives exactly `Submit`: the requests made, in order, and what the page shows. |
| Front.RegionalChain | docs/app.js:81-86 | The Nigeria-mode branch gives exactly `Submit` in Nigeria mode. |
| Front.PrimaryChain | docs/app.js:87-102 | The other branch gives exactly `Submit` without Nigeria mode. |
| Front.RunVariants | docs/app.js:94-97 | The variant loop gives exactly `TryCalls`. |
| Front.RegionalFirst | docs/app.js:81-86 | In Nigeria mode the regional request comes first. Exactly one search follows, only when the regional request gave nothing, and its answer is shown even if empty. |
| Front.PrimaryFallbacks | docs/app.js:87-102 | Otherwise the variants are tried only when the first search gave nothing, and the regional request only after that search and all five variants came back empty. What is shown is the answer to the last request: the first search's results, else the first non-empty variant's, else the regional answer. A failed last request shows the error. |
| Front.FailureAborts | docs/app.js:79-111 | A failing request aborts the chain: the error status is shown exactly when the last request failed, and every earlier request succeeded. |
| Front.Line | docs/app.js:39-40 | A line starts with "- ", then the tag and `title \|\| text`, then the optional ` — publisher`. It ends with `\n  url` when there is a url. Its length is the sum of the parts, so an absent publisher or url adds nothing. |
| Front.LabelsAgree | docs/app.js:20-40 | The list says "Related Article" exactly when there is no rating, and then the script's tag is `[Related]`; a rating is shown inside both the list's `<strong>` and the script's brackets. |
| Front.ScriptLinesShape | docs/app.js:42-49 | The line array is three fixed lines, then the lines of the first eight results in order, then two fixed lines. |
| Front.ScriptLayout | docs/app.js:36-50 | Joined, the script is the HOOK line and the FINDINGS heading, then one line per result among the first eight (none when there are no results), then the closing note. |
| Front.JoinHead | docs/app.js:43-45 | The three opening lines join to the HOOK line, an empty line and the FINDINGS heading. |
| Front.JoinTail | docs/app.js:47-48 | The two closing lines join to an empty line and the note. |
| Front.ApiParams | docs/app.js:2-4 | Definition of the parameters `api` sets; its properties are stated in Front.ApiParamsNonNull and Front.CallParams. |
| Front.Variants | docs/app.js:88-91 | Definition of the five retries; its properties are stated in Front.VariantCalls and Front.PrimaryFallbacks. |
| Front.TryCalls | docs/app.js:92-95 | Definition of the variant loop; its properties are stated in Front.TryCallsOrder and Front.RunVariants. |
| Front.Submit | docs/app.js:71-112 | Definition of the submit handler; its properties are stated in Front.SubmitSearch, Front.RegionalChain, Front.PrimaryChain, Front.RegionalFirst, Front.PrimaryFallbacks and Front.FailureAborts. |
| Front.Tag | docs/app.js:38 | Definition of the script tag; its properties are stated in Front.Line and Front.LabelsAgree. |
| Front.RatingLabel | docs/app.js:20 | Definition of the list label; its properties are stated in Front.LabelsAgree. |
| Front.ScriptLines | docs/app.js:37-49 | Definition of the line array; its properties are stated in Front.ScriptLinesShape. |
| Front.BuildScript | docs/app.js:36-50 | Definition of `buildScript`; its properties are stated in Front.ScriptLayout, Front.JoinHead and Front.JoinTail. |
| Legacy.Entity | main.js:51 | Each of the five special characters becomes an entity starting with `&`. Every other character is kept, and no replacement contains `<`, `>`, `"` or `'`. |
| Legacy.UnescapeEntity | main.js:51 | Decoding undoes one character's replacement, whatever follows it. |
| Legacy.EscapeRoundTrip | main.js:50-52 | Escaping loses nothing: decoding the output gives the input back. |
| Legacy.EscapeSafe | main.js:50-52 | No `<`, `>`, `"` or `'` is left in the output. |
| Legacy.EscapeLength | main.js:50-52 | The output is at least as long as the input. It is exactly as long, and equal to the input, if and only if none of the five characters occurs. |
| Legacy.PublisherShownAsObject | main.js:41-45 | As written, the Source line of a claim whose publisher is an object reads "[object Object]". |
| Legacy.PublisherShownByName | main.js:41-45 | Corrected, the Source line reads the publisher's name. |
| Legacy.ReviewedParts | main.js:39-46 | For a claim in the search API's shape, the block reads the claim text, the publisher object and the rating, and has no link without a url. |
| Legacy.FirstReviewOnly | main.js:39 | Only the first review is read: dropping the others changes nothing. |
| Legacy.Defaults | main.js:40-44 | Without a truthy `textualRating` the rating reads "Unrated", and a non-empty string rating is shown as it is. Without text the claim reads "(no text)". |
| Legacy.NoReviews | main.js:39-46 | A claim with no reviews still gets a block: "Unrated", no publisher and no link. |
| Legacy.Blocks | main.js:34 | `claims.map(c => claimBlock(c))`, with `claimBlock` as written and with the name-showing block, gives one block per claim, in order, and throws exactly when some claim is null. |
| Legacy.RenderEmpty | main.js:29-33 | With no claims, absent or empty, the page as written and the intended page both show the message naming the escaped query. |
| Legacy.RenderCount | main.js:34-35 | With claims, the page shows a header whose count is the number of claims, then the blocks `claimBlock` builds as written, one per claim, in order; the intended page has the same header and the name-showing blocks. |
| Legacy.RenderShowsObject | main.js:28-45 | A page for one claim reviewed by an organisation reads "Source: [object Object]" as written and the organisation's name on the intended page. |
| Legacy.Escape | main.js:50-52 | Definition of `escapeHtml`; its properties are stated in Legacy.Entity, Legacy.EscapeRoundTrip, Legacy.EscapeSafe and Legacy.EscapeLength. |
| Legacy.ClaimBlockAsWritten | main.js:38-48 | Definition of `claimBlock` as written; its properties are stated in Legacy.PublisherShownAsObject. |
| Legacy.ClaimBlock | main.js:38-48 | Definition of `claimBlock` showing the publisher name; its properties are stated in Legacy.PublisherShownByName, Legacy.ReviewedParts, Legacy.FirstReviewOnly, Legacy.Defaults and Legacy.NoReviews. |
| Legacy.RenderWith | main.js:28-36 | Definition of the body of `renderResults` for a given block function; its properties are stated in Legacy.RenderEmpty and Legacy.RenderCount. |
| Legacy.RenderResults | main.js:28-36 | Definition of `renderResults` as written, mapping `claimBlock` as written; its properties are stated in Legacy.Blocks, Legacy.RenderEmpty, Legacy.RenderCount and Legacy.RenderShowsObject. |
| Legacy.RenderResultsIntended | main.js:28-45 | Definition of `renderResults` with the name-showing block; its properties are stated in Legacy.RenderEmpty, Legacy.RenderCount and Legacy.RenderShowsObject. |

## Left out

- I/O is not modelled: HTTP and `fetch`, `Response` construction, headers and CORS, `async` scheduling, the DOM, the clipboard, downloads and timers. Calls are oracle parameters. A response is modelled as a status and a kind of body, without its JSON text or headers.
- The text of the outer `catch` message (`err?.message`) is not modelled. A crash is the `Crashed` body.
- Regular-expression semantics are not modelled for the `ld+json`, `href` and `<title>` scans: they are given as oracle results in document order. The `/\s+\|.*/` title cut and `trim` are modelled.
- The crawl applies no image, feed, admin or host filter. It keeps whatever the `href` pattern captures and cuts the list to 12 (listings, worker/src/index.js:124-131) or 10 (site search, 143-151). The model does the same, with the pattern itself an oracle.
- JSON numbers are integers, with no floating point and no NaN.
- JavaScript's `undefined` and `null` are merged wherever the code only tests them with `||`, `?.` or `===`. `main.js` prints them differently, and there they stay apart (`Legacy.StringOf`).
- Record fields are strings. A non-string truthy value in a field position (a numeric JSON-LD `headline`, say) reads as "", where JavaScript would keep the value. This also removes three error paths:
  - worker/src/index.js:213-214: with a non-empty query, a truthy non-string `title` (or `text`, when the title does not match) makes `.toLowerCase()` throw, and the catch at lines 46-47 answers 500. Worker.NgSearch and Worker.NgSearchRoute answer 200, filtering that record as if the field were "".
  - worker/src/index_backup_2.js:53-55: the same throw reaches the catch at lines 61-62 and gives 500. WorkerBackup2.NgSearchFilter states 200 with no condition.
  - docs/docs/app.js:105: `r.rating.trim()` on a truthy non-string rating throws into the catch at lines 179-182, which shows the error status. App.Submit shows the list, and App.BadgeOf reads the rating as "".
  - The dedup keys of worker/src/index.js:206 and worker/src/index_backup_2.js:190 are built from the same "" and can merge records that JavaScript keeps apart.
- `toLowerCase` lower-cases ASCII letters only, with no Unicode case mapping.
- JsonLd.LenientReviewUrl: says nothing about a truthy url that is not a string, because such a record field reads as "" in this model (see above).
- Articles.CutBeforeSuffix: proves the `\s+\|` cut only for titles shaped `title + " |" + rest` on one line. The general behaviour is the definition `CutAtPipe` itself.
- Smart.StopsAtThreshold: with threshold 0, "not stopped" only implies an empty `aggregated`. The three revisions use 5 and 6.
- In the front end, a `results` that is not an array reads as no results, and a string `results` is not iterated character by character. The search oracles return record lists.
- Left out of the front end: the `fetchFactChecksOnce`, `fetchNigeria`, `fetchNigeriaClaims` and `fetchFactChecks` helpers (URLs built for `fetch`), and the `lang` parameter rule inside them.
- The status line and the script box of `docs/docs/app.js` are not modelled as text: the `Display` of App.Submit says what they show (the count on `Shown`, the error message on `Failed`, nothing touched on `Ignored`, docs/docs/app.js:146), and App.BuildScript builds the script.
- Left out of the markup: the `renderResults` list markup of `docs/docs/app.js` beyond its badge (`App.BadgeOf`), of `docs/app.js` beyond its rating label (`Front.RatingLabel`), and of `docs/docs/app_backup_2.js`, `docs/docs/app_backup.js` and `docs/app_backup.js`.
- The submit handlers of `docs/docs/app_backup_2.js`, `docs/docs/app_backup.js`, `docs/app_backup.js` and `main.js` are left out. Those pages only wire the modelled search and script functions to the DOM. `main.js` also fetches from a constant base URL that already holds a query string.
- `Object.entries` with a repeated key cannot arise from the object literals `api` is called with. Parameters are an ordered list of pairs.
- The link in a `main.js` claim block is inserted without escaping. The model does the same.

## Findings

| source | as written | input that shows it | evidently intended | confidence | as-written member | corrected member |
|---|---|---|---|---|---|---|
| worker/src/index.js:8-15 | The banner branch tests `cleanPath === "/"`, but `cleanPath` has every trailing slash stripped, so it is never "/". | `GET /` strips to "" and gets 404 "Not found". | `GET /` answers with the "RoundScript API running" banner. | not executed | Worker.HandleAsWritten, Worker.BannerUnreachable | Worker.Handle, Worker.BannerOnRoot |
| worker/src/index_backup_2.js:12-24 | As in `index.js`: the banner is tested against the stripped path "/". | `GET /` gets 404. | `GET /` answers with the banner. | not executed | WorkerBackup2.HandleAsWritten, WorkerBackup2.BannerUnreachable | WorkerBackup2.Handle, WorkerBackup2.BannerOnRoot |
| main.js:41-45 | `pub = top.publisher \|\| ''` is passed to `escapeHtml`, which stringifies it. The search API's publisher is an object `{ name, site }`, as the worker's `r.publisher?.name` reads it. | A claim reviewed by `{ "publisher": { "name": "Snopes" }, "textualRating": "False" }` shows "Source: [object Object]". | The Source line shows the publisher's name. | not executed | Legacy.ClaimBlockAsWritten, Legacy.RenderResults, Legacy.PublisherShownAsObject, Legacy.RenderShowsObject | Legacy.ClaimBlock, Legacy.RenderResultsIntended, Legacy.PublisherShownByName, Legacy.RenderShowsObject |
