/**
 * worker/src/index_backup.js: the first revision of the worker, with only the
 * Google endpoint, routed on the unstripped path.
 */
module WorkerBackup {
  import Api
  import Worker
  import Articles

  /** The router: preflight first, then exactly `GET /api/search`, else 404. */
  function Handle(req: Api.Request, key: string, google: Api.Google): (r: Api.Response)
    ensures req.verb == "OPTIONS" ==> r == Api.Preflight
    ensures req.verb != "OPTIONS" && req.verb == "GET" && req.path == "/api/search" ==>
      r == Api.SearchEndpoint(req, key, google)
    ensures req.verb != "OPTIONS" && (req.verb != "GET" || req.path != "/api/search") ==> r == Api.NotFound
  {
    if req.verb == "OPTIONS" then Api.Preflight
    else if req.path == "/api/search" && req.verb == "GET" then Api.SearchEndpoint(req, key, google)
    else Api.NotFound
  }

  /** The one non-404 route other than the preflight is the Google endpoint. */
  lemma OnlySearchRoute(req: Api.Request, key: string, google: Api.Google)
    requires Handle(req, key, google) != Api.NotFound
    requires req.verb != "OPTIONS"
    ensures req.verb == "GET" && req.path == "/api/search"
  {
  }

  /**
   * Unlike the later revision, a trailing slash is not stripped:
   * `GET /api/search/` is 404 here and the Google endpoint in worker/src/index.js.
   */
  lemma TrailingSlashContrast(req: Api.Request, key: string, google: Api.Google, web: Articles.Web)
    requires req.verb == "GET" && req.path == "/api/search/"
    ensures Handle(req, key, google) == Api.NotFound
    ensures Worker.Handle(req, key, google, web) == Api.SearchEndpoint(req, key, google)
  {
    assert req.path[..|req.path| - 1] == "/api/search";
    assert Api.StripTrailingSlashes("/api/search") == "/api/search";
    assert Api.StripTrailingSlashes(req.path) == "/api/search";
  }
}
