/**
 * The worker's HTTP boundary: requests, responses, the upstream Google call as
 * an oracle, and the `/api/search` endpoint, whose body is the same code in
 * worker/src/index.js, index_backup.js and index_backup_2.js.
 */
module Api {
  import opened Js
  import opened Claims

  /** The parts of a request the handlers read: the method (`verb`), the pathname and query parameters. */
  datatype Request = Request(verb: string, path: string, params: map<string, string>)

  /** The query string the worker sends to `claims:search`. */
  datatype UpstreamQuery = UpstreamQuery(
    query: string,
    languageCode: Option<string>,
    pageSize: string,
    key: string)

  /**
   * What `fetch` of the upstream URL gives: it throws (Unreachable), answers
   * with a non-ok status and a body text, or answers ok with a body that
   * `gRes.json()` parses (Some) or fails to parse (None).
   */
  datatype Reply = Unreachable | NotOk(status: int, text: string) | Delivered(payload: Option<Json>)

  /** The response body, by kind. */
  datatype Body =
    | NoBody
    | Banner(message: string)
    | Error(message: string)
    | UpstreamFailure(status: int, text: string)
    | Found(result: SearchResult)
    /** `{ error: err.message }` from the outer catch; the message text is not modelled. */
    | Crashed

  datatype Response = Response(status: int, body: Body)

  type Google = UpstreamQuery -> Reply

  /** `url.searchParams.get(k) || ""` */
  function Param(req: Request, k: string): string {
    if k in req.params then req.params[k] else ""
  }

  /** `path.replace(/\/+$/, "")` */
  function StripTrailingSlashes(s: string): (r: string)
    ensures |r| <= |s| && r == s[..|r|]
    ensures r == [] || r[|r| - 1] != '/'
    ensures forall k | |r| <= k < |s| :: s[k] == '/'
  {
    if s != [] && s[|s| - 1] == '/' then
      var r := StripTrailingSlashes(s[..|s| - 1]);
      assert s[..|s| - 1][..|r|] == s[..|r|];
      r
    else s
  }

  const NotFound := Response(404, Error("Not found"))
  const Preflight := Response(200, NoBody)

  /** `url.searchParams.get("lang") || "en"` */
  function Lang(req: Request): string {
    Or(Param(req, "lang"), "en")
  }

  /** The upstream query for a request: `languageCode` only when `lang && lang !== "auto"`. */
  function UpstreamFor(req: Request, key: string): UpstreamQuery {
    var lang := Lang(req);
    UpstreamQuery(
      query := Param(req, "q"),
      languageCode := if lang != "" && lang != "auto" then Some(lang) else None,
      pageSize := "10",
      key := key)
  }

  /**
   * The `/api/search` branch: 400 without `q`, 500 without the API key, then one
   * upstream call whose non-ok status is passed through, else the normalised payload.
   * `key` is `env.FACTCHECK_API_KEY`, with "" when it is unset.
   */
  function SearchEndpoint(req: Request, key: string, google: Google): Response {
    var q := Param(req, "q");
    if q == "" then Response(400, Error("Missing q"))
    else if key == "" then Response(500, Error("Missing FACTCHECK_API_KEY"))
    else
      match google(UpstreamFor(req, key))
      case Unreachable => Response(500, Crashed)
      case NotOk(status, text) => Response(status, UpstreamFailure(status, text))
      case Delivered(None) => Response(500, Crashed)
      case Delivered(Some(raw)) =>
        match NormalizeResults(q, raw)
        case None => Response(500, Crashed)
        case Some(res) => Response(200, Found(res))
  }

  /** An empty or missing `q` is refused with 400 whatever the key, before the key check. */
  lemma MissingQueryFirst(req: Request, key: string, google: Google)
    requires Param(req, "q") == ""
    ensures SearchEndpoint(req, key, google) == Response(400, Error("Missing q"))
  {
  }

  /** With a query but no key the answer is 500. */
  lemma MissingKey(req: Request, google: Google)
    requires Param(req, "q") != ""
    ensures SearchEndpoint(req, "", google) == Response(500, Error("Missing FACTCHECK_API_KEY"))
  {
  }

  /** Both refusals come before any network call: the upstream is not consulted. */
  lemma RefusalsBeforeNetwork(req: Request, key: string, g1: Google, g2: Google)
    requires Param(req, "q") == "" || key == ""
    ensures SearchEndpoint(req, key, g1) == SearchEndpoint(req, key, g2)
  {
  }

  /** Otherwise exactly one query is sent, and the answer depends on nothing else the upstream could say. */
  lemma OneUpstreamCall(req: Request, key: string, g1: Google, g2: Google)
    requires g1(UpstreamFor(req, key)) == g2(UpstreamFor(req, key))
    ensures SearchEndpoint(req, key, g1) == SearchEndpoint(req, key, g2)
  {
  }

  /**
   * The query sent: `query` is `q`, `pageSize` is "10", the key is passed on, and
   * `languageCode` is absent exactly for "auto", "en" when `lang` is missing or
   * empty, and `lang` otherwise.
   */
  lemma UpstreamParameters(req: Request, key: string)
    ensures UpstreamFor(req, key).query == Param(req, "q")
    ensures UpstreamFor(req, key).pageSize == "10"
    ensures UpstreamFor(req, key).key == key
    ensures UpstreamFor(req, key).languageCode.None? <==> Param(req, "lang") == "auto"
    ensures Param(req, "lang") == "" ==> UpstreamFor(req, key).languageCode == Some("en")
    ensures Param(req, "lang") !in {"", "auto"} ==> UpstreamFor(req, key).languageCode == Some(Param(req, "lang"))
  {
  }

  /** A non-ok upstream status and body are passed through unchanged. */
  lemma UpstreamStatusPassedThrough(req: Request, key: string, google: Google, status: int, text: string)
    requires Param(req, "q") != "" && key != ""
    requires google(UpstreamFor(req, key)) == NotOk(status, text)
    ensures SearchEndpoint(req, key, google) == Response(status, UpstreamFailure(status, text))
  {
  }

  /** An ok upstream payload answers 200 with the normalised result for `q`. */
  lemma SearchDelivers(req: Request, key: string, google: Google, raw: Json)
    requires Param(req, "q") != "" && key != ""
    requires google(UpstreamFor(req, key)) == Delivered(Some(raw))
    requires NormalizeResults(Param(req, "q"), raw).Some?
    ensures SearchEndpoint(req, key, google) == Response(200, Found(NormalizeResults(Param(req, "q"), raw).value))
    ensures SearchEndpoint(req, key, google).body.result.query == Param(req, "q")
  {
  }

  /** Stripping the trailing slashes of an already stripped path changes nothing. */
  lemma StripIdempotent(s: string)
    ensures StripTrailingSlashes(StripTrailingSlashes(s)) == StripTrailingSlashes(s)
  {
  }
}
