/**
 * `smartFactChecks`, shared by docs/docs/app.js, docs/docs/app_backup.js and
 * docs/docs/app_backup_2.js: every (language, query variant) pair of a fixed
 * grid is tried at most once, the results are merged keeping the first record
 * per `title|reviewUrl`, and the search stops once the merged list reaches a
 * threshold (6, 5 and 6 in the three revisions). A call to
 * `fetchFactChecksOnce(v, l)` is an oracle: None where it throws.
 */
module Smart {
  import opened Js
  import opened Claims
  import Seqs

  /** One attempt: a language and a query variant. */
  datatype Pair = Pair(lang: string, variant: string)

  type Search = Pair -> Option<seq<ClaimRecord>>

  /** `[langSelected || 'en', (langSelected === 'es' ? 'en' : 'es'), 'auto']` */
  function LangOrder(sel: string): seq<string> {
    [Or(sel, "en"), if sel == "es" then "en" else "es", "auto"]
  }

  /** The six query variants, the original query first. */
  function Variants(q: string): seq<string> {
    [q, "\"" + q + "\"", q + " fact-check", q + " verificaci\U{00F3}n", q + " falso", q + " bulo"]
  }

  /** The pairs of one language, in variant order. */
  function Row(l: string, vs: seq<string>): (r: seq<Pair>)
    ensures |r| == |vs|
    ensures forall k | 0 <= k < |vs| :: r[k] == Pair(l, vs[k])
  {
    seq(|vs|, k requires 0 <= k < |vs| => Pair(l, vs[k]))
  }

  function RowFn(vs: seq<string>): string -> seq<Pair> {
    l => Row(l, vs)
  }

  /** The nested `for (const l of langOrder) for (const v of variants)` order. */
  function Grid(ls: seq<string>, vs: seq<string>): seq<Pair> {
    Seqs.FlatMap(ls, RowFn(vs))
  }

  /** `${l}|${v}`, the key of the `tried` set. */
  function PairKey(p: Pair): string {
    p.lang + "|" + p.variant
  }

  /** `[r.title, r.reviewUrl].join('|')` (with string fields, the same as `[r.title||"", r.reviewUrl||""].join("|")`). */
  function TitleUrlKey(r: ClaimRecord): string {
    r.title + "|" + r.reviewUrl
  }

  /** The `seen`-Set filter on `title|reviewUrl`. */
  function Dedup(rs: seq<ClaimRecord>): seq<ClaimRecord> {
    Seqs.DedupBy(rs, TitleUrlKey)
  }

  /**
   * The loop state: the `tried` keys, `aggregated`, the attempts made so far
   * (the calls of `fetchFactChecksOnce`, in order) and whether it has stopped.
   */
  datatype Progress = Progress(tried: set<string>, aggregated: seq<ClaimRecord>, attempts: seq<Pair>, stopped: bool)

  const Start := Progress({}, [], [], false)

  /** One iteration of the inner loop. */
  function Step(search: Search, threshold: nat, p: Progress, pair: Pair): Progress {
    if p.stopped || PairKey(pair) in p.tried then p
    else
      var next := p.(tried := p.tried + {PairKey(pair)}, attempts := p.attempts + [pair]);
      var data := search(pair);
      if data.Some? && |data.value| > 0 then
        var agg := Dedup(p.aggregated + data.value);
        next.(aggregated := agg, stopped := |agg| >= threshold)
      else next
  }

  /** The loop over `pairs`, from the empty state. */
  function Run(search: Search, threshold: nat, pairs: seq<Pair>): Progress
    decreases |pairs|
  {
    if pairs == [] then Start
    else Step(search, threshold, Run(search, threshold, pairs[..|pairs| - 1]), pairs[|pairs| - 1])
  }

  /** `smartFactChecks(query, langSelected)`: the results. */
  function SmartResults(search: Search, query: string, sel: string, threshold: nat): seq<ClaimRecord> {
    Run(search, threshold, Grid(LangOrder(sel), Variants(query))).aggregated
  }

  /**
   * The nested loops; they return (or `break` out of both loops) as soon as
   * `aggregated.length >= threshold`.
   */
  method Aggregate(search: Search, langs: seq<string>, vs: seq<string>, threshold: nat) returns (aggregated: seq<ClaimRecord>)
    ensures aggregated == Run(search, threshold, Grid(langs, vs)).aggregated
  {
    var tried: set<string> := {};
    aggregated := [];
    ghost var attempts: seq<Pair> := [];
    for i := 0 to |langs|
      invariant Progress(tried, aggregated, attempts, false) == Run(search, threshold, Grid(langs[..i], vs))
    {
      GridSnoc(langs[..i], langs[i], vs);
      assert langs[..i + 1] == langs[..i] + [langs[i]];
      var halted;
      tried, aggregated, attempts, halted := ScanRow(search, Grid(langs[..i], vs), langs[i], vs, tried, aggregated, attempts, threshold);
      if halted {
        GridHalt(search, threshold, langs, vs, i + 1);
        return;
      }
    }
    assert langs[..|langs|] == langs;
  }

  /**
   * The inner loop over the variants of one language, from the state after
   * the pairs `done`; `halted` is the early `return`.
   */
  method ScanRow(search: Search, ghost done: seq<Pair>, l: string, vs: seq<string>,
                 tried0: set<string>, agg0: seq<ClaimRecord>, ghost att0: seq<Pair>, threshold: nat)
    returns (tried: set<string>, aggregated: seq<ClaimRecord>, ghost attempts: seq<Pair>, halted: bool)
    requires Progress(tried0, agg0, att0, false) == Run(search, threshold, done)
    ensures Progress(tried, aggregated, attempts, halted) == Run(search, threshold, done + Row(l, vs))
  {
    tried, aggregated, attempts, halted := tried0, agg0, att0, false;
    assert vs[..0] == [];
    assert done + Row(l, vs[..0]) == done;
    for j := 0 to |vs|
      invariant Progress(tried, aggregated, attempts, false) == Run(search, threshold, done + Row(l, vs[..j]))
    {
      var pair := Pair(l, vs[j]);
      RowStep(search, threshold, done, l, vs, j);
      var key := PairKey(pair);
      if key !in tried {
        tried := tried + {key};
        attempts := attempts + [pair];
        var data := search(pair);
        if data.Some? && |data.value| > 0 {
          aggregated := Seqs.KeepFirst(aggregated + data.value, TitleUrlKey);
          if |aggregated| >= threshold {
            RowHalt(search, threshold, done, l, vs, j + 1);
            halted := true;
            return;
          }
        }
      }
    }
    assert vs[..|vs|] == vs;
  }

  /** `smartFactChecks(query, langSelected)`, without the regional prelude. */
  method SmartFactChecks(search: Search, query: string, sel: string, threshold: nat) returns (r: SearchResult)
    ensures r == SearchResult(query, SmartResults(search, query, sel, threshold))
  {
    var aggregated := Aggregate(search, LangOrder(sel), Variants(query), threshold);
    return SearchResult(query, aggregated);
  }

  lemma RunSnoc(search: Search, threshold: nat, s: seq<Pair>, x: Pair)
    ensures Run(search, threshold, s + [x]) == Step(search, threshold, Run(search, threshold, s), x)
  {
    assert (s + [x])[..|s + [x]| - 1] == s;
  }

  /** One more variant of a row: one more step. */
  lemma RowStep(search: Search, threshold: nat, done: seq<Pair>, l: string, vs: seq<string>, j: nat)
    requires j < |vs|
    ensures Run(search, threshold, done + Row(l, vs[..j + 1])) ==
      Step(search, threshold, Run(search, threshold, done + Row(l, vs[..j])), Pair(l, vs[j]))
  {
    RowSnoc(l, vs, j);
    assert done + Row(l, vs[..j + 1]) == (done + Row(l, vs[..j])) + [Pair(l, vs[j])];
    RunSnoc(search, threshold, done + Row(l, vs[..j]), Pair(l, vs[j]));
  }

  /** Once stopped inside a row, the rest of the row changes nothing. */
  lemma RowHalt(search: Search, threshold: nat, done: seq<Pair>, l: string, vs: seq<string>, j: nat)
    requires j <= |vs|
    requires Run(search, threshold, done + Row(l, vs[..j])).stopped
    ensures Run(search, threshold, done + Row(l, vs)) == Run(search, threshold, done + Row(l, vs[..j]))
  {
    var a := done + Row(l, vs[..j]);
    var b := Row(l, vs[j..]);
    RunStable(search, threshold, a, b);
    RowSplit(l, vs, j);
    SplitAssoc(done, Row(l, vs[..j]), b, Row(l, vs));
  }

  lemma SplitAssoc(x: seq<Pair>, y: seq<Pair>, z: seq<Pair>, w: seq<Pair>)
    requires w == y + z
    ensures x + y + z == x + w
  {
  }

  lemma RowSplit(l: string, vs: seq<string>, j: nat)
    requires j <= |vs|
    ensures Row(l, vs) == Row(l, vs[..j]) + Row(l, vs[j..])
  {
    var a := Row(l, vs[..j]);
    var b := Row(l, vs[j..]);
    forall k | 0 <= k < |vs| ensures Row(l, vs)[k] == (a + b)[k] {
      if k >= j {
        assert (a + b)[k] == b[k - j];
      }
    }
  }

  /** Once stopped after a language, the later languages change nothing. */
  lemma GridHalt(search: Search, threshold: nat, ls: seq<string>, vs: seq<string>, i: nat)
    requires i <= |ls|
    requires Run(search, threshold, Grid(ls[..i], vs)).stopped
    ensures Run(search, threshold, Grid(ls, vs)) == Run(search, threshold, Grid(ls[..i], vs))
  {
    RunStable(search, threshold, Grid(ls[..i], vs), Grid(ls[i..], vs));
    Seqs.FlatMapAppend(ls[..i], ls[i..], RowFn(vs));
    assert ls[..i] + ls[i..] == ls;
  }

  lemma RowSnoc(l: string, vs: seq<string>, j: nat)
    requires j < |vs|
    ensures Row(l, vs[..j + 1]) == Row(l, vs[..j]) + [Pair(l, vs[j])]
  {
  }

  lemma GridSnoc(ls: seq<string>, l: string, vs: seq<string>)
    ensures Grid(ls + [l], vs) == Grid(ls, vs) + Row(l, vs)
  {
    Seqs.FlatMapSnoc(ls, l, RowFn(vs));
  }

  /** The grid seen from row `i`, column `j`: the rows before, the rest of row `i`, the rows after. */
  lemma GridSplit(ls: seq<string>, vs: seq<string>, i: nat, j: nat)
    requires i < |ls| && j <= |vs|
    ensures Grid(ls, vs) == Grid(ls[..i], vs) + Row(ls[i], vs[..j]) + (Row(ls[i], vs[j..]) + Grid(ls[i + 1..], vs))
  {
    assert ls == ls[..i] + [ls[i]] + ls[i + 1..];
    Seqs.FlatMapAppend(ls[..i] + [ls[i]], ls[i + 1..], RowFn(vs));
    GridSnoc(ls[..i], ls[i], vs);
    RowSplit(ls[i], vs, j);
  }

  /** Once stopped, nothing changes: later pairs are not attempted. */
  lemma {:induction false} RunStable(search: Search, threshold: nat, a: seq<Pair>, b: seq<Pair>)
    requires Run(search, threshold, a).stopped
    ensures Run(search, threshold, a + b) == Run(search, threshold, a)
    decreases |b|
  {
    if b != [] {
      var b' := b[..|b| - 1];
      RunStable(search, threshold, a, b');
      assert a + b == (a + b') + [b[|b| - 1]];
      RunSnoc(search, threshold, a + b', b[|b| - 1]);
    } else {
      assert a + b == a;
    }
  }

  /**
   * The `tried` set holds exactly the keys of the attempts, no key is attempted
   * twice, and every attempt is one of the grid's pairs, so there are at most
   * `|pairs|` of them.
   */
  lemma {:induction false} RunAttempts(search: Search, threshold: nat, pairs: seq<Pair>)
    ensures var p := Run(search, threshold, pairs);
      p.tried == Seqs.KeySet(p.attempts, PairKey) &&
      Seqs.KeysUnique(p.attempts, PairKey) &&
      (forall x | x in p.attempts :: x in pairs) &&
      |p.attempts| <= |pairs|
    decreases |pairs|
  {
    if pairs != [] {
      var init := pairs[..|pairs| - 1];
      var x := pairs[|pairs| - 1];
      RunAttempts(search, threshold, init);
      var p := Run(search, threshold, init);
      assert pairs == init + [x];
      RunSnoc(search, threshold, init, x);
      forall y | y in p.attempts ensures y in pairs {
        assert y in init;
      }
      if !p.stopped && PairKey(x) !in p.tried {
        var a := p.attempts + [x];
        assert Run(search, threshold, pairs).attempts == a;
        assert Seqs.KeySet(a, PairKey) == Seqs.KeySet(p.attempts, PairKey) + {PairKey(x)};
        forall i, j | 0 <= i < j < |a| ensures PairKey(a[i]) != PairKey(a[j]) {
          if j == |p.attempts| {
            assert a[i] in p.attempts;
          } else {
            assert a[i] == p.attempts[i] && a[j] == p.attempts[j];
          }
        }
      } else {
        assert Run(search, threshold, pairs).attempts == p.attempts;
      }
    }
  }

  /** The grid has 18 pairs: the three languages in order, each with the six variants in order. */
  lemma GridShape(sel: string, q: string)
    ensures var g := Grid(LangOrder(sel), Variants(q));
      |g| == 18 &&
      forall i, k | 0 <= i < 3 && 0 <= k < 6 :: g[6 * i + k] == Pair(LangOrder(sel)[i], Variants(q)[k])
  {
    var ls := LangOrder(sel);
    var vs := Variants(q);
    assert ls == [] + [ls[0]] + [ls[1]] + [ls[2]];
    GridSnoc([], ls[0], vs);
    GridSnoc([ls[0]], ls[1], vs);
    GridSnoc([ls[0], ls[1]], ls[2], vs);
    assert [] + [ls[0]] == [ls[0]];
    assert [ls[0]] + [ls[1]] == [ls[0], ls[1]];
    assert [ls[0], ls[1]] + [ls[2]] == ls;
    var g := Grid(ls, vs);
    assert g == Row(ls[0], vs) + Row(ls[1], vs) + Row(ls[2], vs);
  }

  /** Hence at most 18 calls, each pair at most once. */
  lemma AtMostEighteen(search: Search, query: string, sel: string, threshold: nat)
    ensures var p := Run(search, threshold, Grid(LangOrder(sel), Variants(query)));
      |p.attempts| <= 18 && Seqs.KeysUnique(p.attempts, PairKey)
  {
    GridShape(sel, query);
    RunAttempts(search, threshold, Grid(LangOrder(sel), Variants(query)));
  }

  /** The first attempt is the original query in the selected language (English when none is selected). */
  lemma FirstAttempt(search: Search, query: string, sel: string, threshold: nat)
    ensures Run(search, threshold, Grid(LangOrder(sel), Variants(query))[..1]).attempts == [Pair(Or(sel, "en"), query)]
  {
    GridShape(sel, query);
    var g := Grid(LangOrder(sel), Variants(query));
    assert g[0] == g[6 * 0 + 0] == Pair(LangOrder(sel)[0], Variants(query)[0]);
    RunSnoc(search, threshold, [], g[0]);
    assert g[..1] == [] + [g[0]];
  }

  /** `aggregated` never holds two records with the same `title|reviewUrl`. */
  lemma {:induction false} RunUnique(search: Search, threshold: nat, pairs: seq<Pair>)
    ensures Seqs.KeysUnique(Run(search, threshold, pairs).aggregated, TitleUrlKey)
    decreases |pairs|
  {
    if pairs != [] {
      var init := pairs[..|pairs| - 1];
      RunUnique(search, threshold, init);
      var p := Run(search, threshold, init);
      var data := search(pairs[|pairs| - 1]);
      if data.Some? {
        Seqs.DedupByUnique(p.aggregated + data.value, TitleUrlKey);
      }
    }
  }

  /** A step never removes or reorders what `aggregated` already holds. */
  lemma StepGrows(search: Search, threshold: nat, p: Progress, pair: Pair)
    requires Seqs.KeysUnique(p.aggregated, TitleUrlKey)
    ensures Seqs.IsPrefix(p.aggregated, Step(search, threshold, p, pair).aggregated)
  {
    var data := search(pair);
    if data.Some? {
      Seqs.DedupByPrefix(p.aggregated, data.value, TitleUrlKey);
      Seqs.DedupByIdentical(p.aggregated, TitleUrlKey);
    }
  }

  /** Earlier results are never removed or reordered by later attempts. */
  lemma {:induction false} RunGrows(search: Search, threshold: nat, a: seq<Pair>, b: seq<Pair>)
    ensures Seqs.IsPrefix(Run(search, threshold, a).aggregated, Run(search, threshold, a + b).aggregated)
    decreases |b|
  {
    if b == [] {
      assert a + b == a;
    } else {
      var b' := b[..|b| - 1];
      RunGrows(search, threshold, a, b');
      assert a + b == (a + b') + [b[|b| - 1]];
      RunSnoc(search, threshold, a + b', b[|b| - 1]);
      RunUnique(search, threshold, a + b');
      StepGrows(search, threshold, Run(search, threshold, a + b'), b[|b| - 1]);
    }
  }

  /** A thrown or empty attempt leaves `aggregated` unchanged and does not stop the search. */
  lemma FailedAttempt(search: Search, threshold: nat, p: Progress, pair: Pair)
    requires search(pair).None? || search(pair) == Some([])
    ensures Step(search, threshold, p, pair).aggregated == p.aggregated
    ensures Step(search, threshold, p, pair).stopped == p.stopped
  {
  }

  /** A search that did not stop has tried every pair of the grid. */
  lemma {:induction false} AllTriedUnlessStopped(search: Search, threshold: nat, pairs: seq<Pair>)
    ensures var p := Run(search, threshold, pairs);
      !p.stopped ==> forall x | x in pairs :: PairKey(x) in p.tried
    decreases |pairs|
  {
    if pairs != [] {
      var init := pairs[..|pairs| - 1];
      var x := pairs[|pairs| - 1];
      AllTriedUnlessStopped(search, threshold, init);
      RunSnoc(search, threshold, init, x);
      assert pairs == init + [x];
      var p := Run(search, threshold, init);
      var q := Run(search, threshold, pairs);
      if !q.stopped {
        assert !p.stopped;
        assert p.tried <= q.tried;
        forall y | y in pairs ensures PairKey(y) in q.tried {
          if y != x {
            assert y in init;
          }
        }
      }
    }
  }

  /**
   * The search stops exactly when a merge brings `aggregated` to the threshold:
   * stopped means at least `threshold` records; not stopped means fewer, or
   * no results yet.
   */
  lemma {:induction false} StopsAtThreshold(search: Search, threshold: nat, pairs: seq<Pair>)
    ensures var p := Run(search, threshold, pairs);
      (p.stopped ==> |p.aggregated| >= threshold) &&
      (!p.stopped ==> |p.aggregated| < threshold || p.aggregated == [])
    decreases |pairs|
  {
    if pairs != [] {
      var init := pairs[..|pairs| - 1];
      StopsAtThreshold(search, threshold, init);
      assert Run(search, threshold, pairs) == Step(search, threshold, Run(search, threshold, init), pairs[|pairs| - 1]);
    }
  }
}
