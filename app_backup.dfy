/**
 * docs/docs/app_backup.js: the first smart search, which returns as soon as
 * five merged results are in. Its `buildScript` is the one of
 * docs/app_backup.js (`FrontBackup.BuildScript`).
 */
module AppBackup {
  import opened Claims
  import Seqs
  import Smart

  const Threshold := 5

  /** `smartFactChecks(query, langSelected)` with the early return at five. */
  method SmartFactChecks(search: Smart.Search, query: string, sel: string) returns (r: SearchResult)
    ensures r.query == query
    ensures r.results == Smart.SmartResults(search, query, sel, Threshold)
  {
    r := Smart.SmartFactChecks(search, query, sel, Threshold);
  }

  /**
   * At most 18 calls, no pair twice, and no two results with the same
   * `title|reviewUrl`; the search ends with five or more results exactly when
   * it returned early, and otherwise only after trying every pair.
   */
  lemma Aggregation(search: Smart.Search, query: string, sel: string)
    ensures var g := Smart.Grid(Smart.LangOrder(sel), Smart.Variants(query));
      var p := Smart.Run(search, Threshold, g);
      |p.attempts| <= 18 && Seqs.KeysUnique(p.attempts, Smart.PairKey) &&
      Seqs.KeysUnique(p.aggregated, Smart.TitleUrlKey) &&
      (p.stopped <==> |p.aggregated| >= 5) &&
      (!p.stopped ==> forall x | x in g :: Smart.PairKey(x) in p.tried)
  {
    var g := Smart.Grid(Smart.LangOrder(sel), Smart.Variants(query));
    Smart.AtMostEighteen(search, query, sel, Threshold);
    Smart.RunUnique(search, Threshold, g);
    Smart.StopsAtThreshold(search, Threshold, g);
    Smart.AllTriedUnlessStopped(search, Threshold, g);
  }

  /** What the first `n` of the 18 pairs collected is never removed or reordered by the rest. */
  lemma EarlierKept(search: Smart.Search, query: string, sel: string, n: nat)
    requires n <= |Smart.Grid(Smart.LangOrder(sel), Smart.Variants(query))|
    ensures var g := Smart.Grid(Smart.LangOrder(sel), Smart.Variants(query));
      Seqs.IsPrefix(Smart.Run(search, Threshold, g[..n]).aggregated, Smart.Run(search, Threshold, g).aggregated)
  {
    var g := Smart.Grid(Smart.LangOrder(sel), Smart.Variants(query));
    Smart.RunGrows(search, Threshold, g[..n], g[n..]);
    assert g[..n] + g[n..] == g;
  }
}
