/**
 * docs/docs/app_backup_2.js: smart search with an optional regional first
 * step, the global grid leaving both loops with `break` once six results are
 * in, and a five-bullet script.
 */
module AppBackup2 {
  import opened Js
  import opened Claims
  import Seqs
  import Smart
  import Script
  import App
  import FrontBackup

  const Threshold := 6
  const BulletCap := 5

  /** `fetchNigeriaClaims(query)`: None where it throws. */
  type Regional = string -> Option<seq<ClaimRecord>>

  /** `dedupResults(arr)`: the `seen` Set filter on `(title||"")|(reviewUrl||"")`. */
  method DedupResults(arr: seq<ClaimRecord>) returns (out: seq<ClaimRecord>)
    ensures out == Smart.Dedup(arr)
  {
    out := Seqs.KeepFirst(arr, Smart.TitleUrlKey);
  }

  /**
   * The kept records come from `arr`, no two share a key, every key of `arr`
   * survives, and the record kept for a key is its first occurrence.
   */
  lemma DedupKeepsFirst(arr: seq<ClaimRecord>)
    ensures var d := Smart.Dedup(arr);
      (forall r | r in d :: r in arr) && |d| <= |arr| &&
      Seqs.KeysUnique(d, Smart.TitleUrlKey) &&
      Seqs.KeySet(d, Smart.TitleUrlKey) == Seqs.KeySet(arr, Smart.TitleUrlKey) &&
      forall i | 0 <= i < |arr| && (forall j | 0 <= j < i :: Smart.TitleUrlKey(arr[j]) != Smart.TitleUrlKey(arr[i])) ::
        arr[i] in d
  {
    Seqs.DedupByFrom(arr, Smart.TitleUrlKey);
    Seqs.DedupByUnique(arr, Smart.TitleUrlKey);
    Seqs.DedupByKeys(arr, Smart.TitleUrlKey);
    forall i | 0 <= i < |arr| && (forall j | 0 <= j < i :: Smart.TitleUrlKey(arr[j]) != Smart.TitleUrlKey(arr[i]))
      ensures arr[i] in Smart.Dedup(arr)
    {
      Seqs.DedupByKeepsFirst(arr, Smart.TitleUrlKey, i);
    }
  }

  /** What the regional step leaves in `aggregated`: its non-empty results, deduplicated. */
  function Prelude(regional: Regional, query: string, nigeriaMode: bool): seq<ClaimRecord> {
    var ng := regional(query);
    if nigeriaMode && ng.Some? && |ng.value| > 0 then Smart.Dedup(ng.value) else []
  }

  /** `smartFactChecks(query, langSelected, nigeriaMode).results` */
  function Results(search: Smart.Search, regional: Regional, query: string, sel: string, nigeriaMode: bool): seq<ClaimRecord> {
    var pre := Prelude(regional, query, nigeriaMode);
    if pre != [] then pre else Smart.SmartResults(search, query, sel, Threshold)
  }

  /** The global calls made: none when the regional step found something. */
  ghost function Attempts(search: Smart.Search, regional: Regional, query: string, sel: string, nigeriaMode: bool): seq<Smart.Pair> {
    if Prelude(regional, query, nigeriaMode) != [] then []
    else Smart.Run(search, Threshold, Smart.Grid(Smart.LangOrder(sel), Smart.Variants(query))).attempts
  }

  /** `smartFactChecks(query, langSelected, nigeriaMode)`, both `break`s included. */
  method SmartFactChecks(search: Smart.Search, regional: Regional, query: string, sel: string, nigeriaMode: bool)
    returns (r: SearchResult, ghost attempts: seq<Smart.Pair>)
    ensures r == SearchResult(query, Results(search, regional, query, sel, nigeriaMode))
    ensures attempts == Attempts(search, regional, query, sel, nigeriaMode)
  {
    var aggregated: seq<ClaimRecord> := [];
    attempts := [];
    if nigeriaMode {
      var ng := regional(query);
      if ng.Some? && |ng.value| > 0 {
        assert aggregated + ng.value == ng.value;
        aggregated := DedupResults(aggregated + ng.value);
        Seqs.DedupByKeys(ng.value, Smart.TitleUrlKey);
        assert ng.value[0] in ng.value;
      }
    }
    if |aggregated| == 0 {
      assert Prelude(regional, query, nigeriaMode) == [];
      var langs := Smart.LangOrder(sel);
      var vs := Smart.Variants(query);
      aggregated := Grid(search, langs, vs);
      attempts := Smart.Run(search, Threshold, Smart.Grid(langs, vs)).attempts;
    }
    return SearchResult(query, aggregated), attempts;
  }

  /** The nested loops over the grid, left by the inner and then the outer `break`. */
  method Grid(search: Smart.Search, langs: seq<string>, vs: seq<string>) returns (aggregated: seq<ClaimRecord>)
    ensures aggregated == Smart.Run(search, Threshold, Smart.Grid(langs, vs)).aggregated
  {
    var tried: set<string> := {};
    aggregated := [];
    ghost var attempts: seq<Smart.Pair> := [];
    ghost var left := false;
    for i := 0 to |langs|
      invariant !left
      invariant Smart.Progress(tried, aggregated, attempts, false) == Smart.Run(search, Threshold, Smart.Grid(langs[..i], vs))
    {
      Smart.GridSnoc(langs[..i], langs[i], vs);
      assert langs[..i + 1] == langs[..i] + [langs[i]];
      var halted;
      tried, aggregated, attempts, halted := ScanRow(search, Smart.Grid(langs[..i], vs), langs[i], vs, tried, aggregated, attempts, Threshold);
      if |aggregated| >= 6 {
        Smart.GridHalt(search, Threshold, langs, vs, i + 1);
        left := true;
        break;
      }
    }
    if !left {
      assert langs[..|langs|] == langs;
    }
  }

  /**
   * The inner loop over the variants of one language, from the state after
   * the pairs `done`; `halted` is the inner `break`, taken once six results are in.
   */
  method ScanRow(search: Smart.Search, ghost done: seq<Smart.Pair>, l: string, vs: seq<string>,
                 tried0: set<string>, agg0: seq<ClaimRecord>, ghost att0: seq<Smart.Pair>, threshold: nat)
    returns (tried: set<string>, aggregated: seq<ClaimRecord>, ghost attempts: seq<Smart.Pair>, halted: bool)
    requires threshold > 0
    requires Smart.Progress(tried0, agg0, att0, false) == Smart.Run(search, threshold, done)
    ensures Smart.Progress(tried, aggregated, attempts, halted) == Smart.Run(search, threshold, done + Smart.Row(l, vs))
    ensures halted <==> |aggregated| >= threshold
  {
    tried, aggregated, attempts, halted := tried0, agg0, att0, false;
    assert vs[..0] == [];
    assert done + Smart.Row(l, vs[..0]) == done;
    for j := 0 to |vs|
      invariant Smart.Progress(tried, aggregated, attempts, false) == Smart.Run(search, threshold, done + Smart.Row(l, vs[..j]))
    {
      var pair := Smart.Pair(l, vs[j]);
      Smart.RowStep(search, threshold, done, l, vs, j);
      var key := Smart.PairKey(pair);
      if key !in tried {
        tried := tried + {key};
        attempts := attempts + [pair];
        var data := search(pair);
        if data.Some? && |data.value| > 0 {
          aggregated := DedupResults(aggregated + data.value);
          if |aggregated| >= threshold {
            Smart.RowHalt(search, threshold, done, l, vs, j + 1);
            halted := true;
            return;
          }
        }
      }
    }
    assert vs[..|vs|] == vs;
    Smart.StopsAtThreshold(search, threshold, done + Smart.Row(l, vs));
  }

  /** In Nigeria mode, regional results mean no global variant is tried. */
  lemma RegionalWins(search: Smart.Search, regional: Regional, query: string, sel: string)
    requires regional(query).Some? && regional(query).value != []
    ensures Attempts(search, regional, query, sel, true) == []
    ensures Results(search, regional, query, sel, true) == Smart.Dedup(regional(query).value)
    ensures Results(search, regional, query, sel, true) != []
  {
    var ng := regional(query).value;
    Seqs.DedupByKeys(ng, Smart.TitleUrlKey);
    assert ng[0] in ng;
    assert Smart.TitleUrlKey(ng[0]) in Seqs.KeySet(Smart.Dedup(ng), Smart.TitleUrlKey);
  }

  /**
   * A regional call that throws, or finds nothing, is swallowed: the result is
   * that of the global grid, as without Nigeria mode.
   */
  lemma RegionalFailureSwallowed(search: Smart.Search, regional: Regional, query: string, sel: string)
    requires regional(query).None? || regional(query) == Some([])
    ensures Results(search, regional, query, sel, true) == Results(search, regional, query, sel, false)
    ensures Attempts(search, regional, query, sel, true) == Attempts(search, regional, query, sel, false)
  {
  }

  /** `buildScript`: five bullets of `title || text || "Untitled"` in the sections of docs/app_backup.js. */
  function BuildScript(topic: string, rs: seq<ClaimRecord>): string {
    Join(FrontBackup.Opening(topic) + [Join(Script.Bullets(rs, BulletCap, App.Bullet), "\n")] + FrontBackup.Closing, "\n")
  }

  /**
   * The script is the fixed opening (starting with the HOOK line), the bullets
   * of the first five results (empty exactly when there are none, with no
   * fallback line) and the fixed closing.
   */
  lemma ScriptLayout(topic: string, rs: seq<ClaimRecord>)
    ensures var bullets := Join(Script.Bullets(rs, BulletCap, App.Bullet), "\n");
      BuildScript(topic, rs) == Join(FrontBackup.Opening(topic), "\n") + "\n" + bullets + "\n" + Join(FrontBackup.Closing, "\n") &&
      (bullets == "" <==> rs == [])
    ensures var hook := FrontBackup.Hook(topic);
      |hook| <= |BuildScript(topic, rs)| && BuildScript(topic, rs)[..|hook|] == hook
  {
    var bullets := Join(Script.Bullets(rs, BulletCap, App.Bullet), "\n");
    Script.JoinAround(FrontBackup.Opening(topic), bullets, FrontBackup.Closing);
    Script.BulletsEmpty(rs, BulletCap, App.Bullet);
    Script.JoinStartsWith(FrontBackup.Opening(topic) + [bullets] + FrontBackup.Closing, "\n");
  }
}
