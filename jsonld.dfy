/**
 * `extractJsonLdClaimReview`: the walk over the schema.org JSON-LD blocks of an
 * article page that turns every `ClaimReview` node into a record.
 *
 * The two revisions of the walk differ in three places, captured by `Dialect`:
 * worker/src/index.js reads `it['@graph']` and `g['@type']` without `?.`, so a
 * null node throws and ends its block (records pushed before the throw stay in
 * `out`); worker/src/index_backup_2.js reads them with `?.`, skips a block
 * that is empty after `trim`, and falls back to the page URL for `reviewUrl`. The regular-expression scan for
 * `<script type="application/ld+json">` is given as the sequence of its captures
 * and `JSON.parse` as an oracle (None where it throws).
 */
module JsonLd {
  import opened Js
  import opened Claims
  import Seqs

  /**
   * `nullSafe`: node and type access use `?.`; `skipBlank`: a block empty after
   * `trim` is skipped before parsing; `pageBase`: the extractor is given the page
   * URL as the last fallback of `reviewUrl`.
   */
  datatype Dialect = Dialect(nullSafe: bool, skipBlank: bool, pageBase: bool)

  /** worker/src/index.js */
  const Strict := Dialect(nullSafe := false, skipBlank := false, pageBase := false)
  /** worker/src/index_backup_2.js */
  const Lenient := Dialect(nullSafe := true, skipBlank := true, pageBase := true)

  /** `typ === 'ClaimReview' || (Array.isArray(typ) && typ.includes('ClaimReview'))` */
  predicate IsClaimType(t: Json) {
    t == JStr("ClaimReview") || (t.JArr? && JStr("ClaimReview") in t.items)
  }

  predicate IsClaimNode(g: Json) {
    IsClaimType(Prop(g, "@type"))
  }

  /** `Array.isArray(json) ? json : [json]` */
  function TopLevel(j: Json): seq<Json> {
    if j.JArr? then j.items else [j]
  }

  /** `g.itemReviewed || {}` */
  function ItemOf(g: Json): Json {
    OrJ(Prop(g, "itemReviewed"), JObj(map[]))
  }

  /**
   * The record of a `ClaimReview` node; `reviewUrl` is `g.url || base || ""`
   * (worker/src/index.js passes "" for `base`, which makes it `g.url || ""`).
   */
  function ClaimOf(g: Json, base: string): ClaimRecord {
    var item := ItemOf(g);
    ClaimRecord(
      text := FirstOf([Prop(item, "claimReviewed"), Prop(item, "name")]),
      claimant := FirstOf([Prop(Prop(item, "author"), "name")]),
      claimDate := FirstOf([Prop(item, "datePublished")]),
      reviewPublisher := FirstOf([Prop(Prop(g, "author"), "name"), Prop(Prop(g, "publisher"), "name")]),
      reviewUrl := FirstOf([Prop(g, "url"), JStr(base)]),
      rating := FirstOf([Prop(Prop(g, "reviewRating"), "alternateName"), Prop(Prop(g, "reviewRating"), "name")]),
      title := FirstOf([Prop(g, "headline"), Prop(item, "name")]))
  }

  /**
   * `it['@graph'] ? it['@graph'] : [it]` followed by `for (const g of graphs)`:
   * None where this throws (a null node without `?.`, or a truthy `@graph` that
   * is not iterable).
   */
  function GraphsOf(d: Dialect, it: Json): Option<seq<Json>> {
    if it == JNull && !d.nullSafe then None
    else if Truthy(Prop(it, "@graph")) then Iterate(Prop(it, "@graph"))
    else Some([it])
  }

  /** The records a walk pushed, and whether it ran to the end without throwing. */
  datatype Walk = Walk(records: seq<ClaimRecord>, completed: bool)

  /** The inner loop, `for (const g of graphs)`. */
  function WalkGraphs(d: Dialect, gs: seq<Json>, base: string): Walk
    decreases |gs|
  {
    if gs == [] then Walk([], true)
    else
      var w := WalkGraphs(d, gs[..|gs| - 1], base);
      var g := gs[|gs| - 1];
      if !w.completed then w
      else if g == JNull && !d.nullSafe then Walk(w.records, false)
      else if IsClaimNode(g) then Walk(w.records + [ClaimOf(g, base)], true)
      else w
  }

  /** The middle loop, `for (const it of arr)`. */
  function WalkItems(d: Dialect, its: seq<Json>, base: string): Walk
    decreases |its|
  {
    if its == [] then Walk([], true)
    else
      var w := WalkItems(d, its[..|its| - 1], base);
      if !w.completed then w
      else
        match GraphsOf(d, its[|its| - 1])
        case None => Walk(w.records, false)
        case Some(gs) =>
          var v := WalkGraphs(d, gs, base);
          Walk(w.records + v.records, v.completed)
  }

  /** What one `<script>` block adds to `out`; a block `JSON.parse` refuses adds nothing. */
  function BlockRecords(d: Dialect, parse: string -> Option<Json>, block: string, base: string): seq<ClaimRecord> {
    var raw := Trim(block);
    var parsed := parse(raw);
    if (d.skipBlank && raw == "") || parsed.None? then []
    else WalkItems(d, TopLevel(parsed.value), base).records
  }

  /** What each block adds, as a function of the block. */
  function BlockFn(d: Dialect, parse: string -> Option<Json>, base: string): string -> seq<ClaimRecord> {
    block => BlockRecords(d, parse, block, base)
  }

  /** The outer `while` loop over the blocks, in document order. */
  function Extract(d: Dialect, parse: string -> Option<Json>, blocks: seq<string>, base: string): seq<ClaimRecord> {
    Seqs.FlatMap(blocks, BlockFn(d, parse, base))
  }

  /** The inner loop over the graph nodes; it stops at the first throw. */
  method WalkGraphNodes(d: Dialect, gs: seq<Json>, base: string) returns (recs: seq<ClaimRecord>, completed: bool)
    ensures Walk(recs, completed) == WalkGraphs(d, gs, base)
  {
    recs, completed := [], true;
    var j := 0;
    while j < |gs| && completed
      invariant 0 <= j <= |gs|
      invariant Walk(recs, completed) == WalkGraphs(d, gs[..j], base)
    {
      assert gs[..j + 1][..j] == gs[..j];
      var g := gs[j];
      if g == JNull && !d.nullSafe {
        completed := false;
      } else if IsClaimType(Prop(g, "@type")) {
        recs := recs + [ClaimOf(g, base)];
      }
      j := j + 1;
    }
    if !completed {
      WalkGraphsStable(d, gs[..j], gs[j..], base);
      assert gs[..j] + gs[j..] == gs;
    } else {
      assert gs[..j] == gs;
    }
  }

  /** The middle loop over the top-level items; it stops at the first throw. */
  method WalkTopLevel(d: Dialect, its: seq<Json>, base: string) returns (recs: seq<ClaimRecord>, completed: bool)
    ensures Walk(recs, completed) == WalkItems(d, its, base)
  {
    recs, completed := [], true;
    var i := 0;
    while i < |its| && completed
      invariant 0 <= i <= |its|
      invariant Walk(recs, completed) == WalkItems(d, its[..i], base)
    {
      assert its[..i + 1][..i] == its[..i];
      var graphs := GraphsOf(d, its[i]);
      if graphs.None? {
        completed := false;
      } else {
        var more, done := WalkGraphNodes(d, graphs.value, base);
        recs, completed := recs + more, done;
      }
      i := i + 1;
    }
    if !completed {
      WalkItemsStable(d, its[..i], its[i..], base);
      assert its[..i] + its[i..] == its;
    } else {
      assert its[..i] == its;
    }
  }

  /**
   * `extractJsonLdClaimReview`: every block is parsed and walked inside its own
   * `try`, so a throw ends only that block.
   */
  method ExtractClaimReviews(d: Dialect, parse: string -> Option<Json>, blocks: seq<string>, base: string)
    returns (out: seq<ClaimRecord>)
    ensures out == Extract(d, parse, blocks, base)
  {
    out := [];
    for b := 0 to |blocks|
      invariant out == Extract(d, parse, blocks[..b], base)
    {
      Seqs.FlatMapStep(blocks, b, BlockFn(d, parse, base));
      var raw := Trim(blocks[b]);
      if !(d.skipBlank && raw == "") {
        var parsed := parse(raw);
        if parsed.Some? {
          var recs, _ := WalkTopLevel(d, TopLevel(parsed.value), base);
          out := out + recs;
        }
      }
    }
    assert blocks[..|blocks|] == blocks;
  }

  /** A graph walk that has thrown stays as it was, whatever nodes follow. */
  lemma {:induction false} WalkGraphsStable(d: Dialect, a: seq<Json>, b: seq<Json>, base: string)
    requires !WalkGraphs(d, a, base).completed
    ensures WalkGraphs(d, a + b, base) == WalkGraphs(d, a, base)
    decreases |b|
  {
    if b == [] {
      assert a + b == a;
    } else {
      WalkGraphsStable(d, a, b[..|b| - 1], base);
      assert (a + b)[..|a + b| - 1] == a + b[..|b| - 1];
    }
  }

  /** An item walk that has thrown stays as it was, whatever items follow. */
  lemma {:induction false} WalkItemsStable(d: Dialect, a: seq<Json>, b: seq<Json>, base: string)
    requires !WalkItems(d, a, base).completed
    ensures WalkItems(d, a + b, base) == WalkItems(d, a, base)
    decreases |b|
  {
    if b == [] {
      assert a + b == a;
    } else {
      WalkItemsStable(d, a, b[..|b| - 1], base);
      assert (a + b)[..|a + b| - 1] == a + b[..|b| - 1];
    }
  }

  /** Reference definition: the records of the claim nodes of `ns`, in order. */
  function ClaimsOfNodes(ns: seq<Json>, base: string): (r: seq<ClaimRecord>)
    ensures |r| <= |ns|
  {
    if ns == [] then []
    else (if IsClaimNode(ns[0]) then [ClaimOf(ns[0], base)] else []) + ClaimsOfNodes(ns[1..], base)
  }

  lemma {:induction false} ClaimsOfNodesAppend(a: seq<Json>, b: seq<Json>, base: string)
    ensures ClaimsOfNodes(a + b, base) == ClaimsOfNodes(a, base) + ClaimsOfNodes(b, base)
  {
    if a == [] {
      assert a + b == b;
    } else {
      var h := if IsClaimNode(a[0]) then [ClaimOf(a[0], base)] else [];
      assert (a + b)[0] == a[0];
      assert (a + b)[1..] == a[1..] + b;
      assert ClaimsOfNodes(a + b, base) == h + ClaimsOfNodes(a[1..] + b, base);
      ClaimsOfNodesAppend(a[1..], b, base);
      var x, y := ClaimsOfNodes(a[1..], base), ClaimsOfNodes(b, base);
      assert h + (x + y) == (h + x) + y;
    }
  }

  lemma ClaimsOfNodesOne(g: Json, base: string)
    ensures ClaimsOfNodes([g], base) == if IsClaimNode(g) then [ClaimOf(g, base)] else []
  {
    assert [g][1..] == [];
  }

  /** Every record a walk emits is the record of a node whose `@type` is (or includes) "ClaimReview". */
  ghost predicate FromClaimNode(r: ClaimRecord, base: string) {
    exists g :: IsClaimNode(g) && r == ClaimOf(g, base)
  }

  lemma {:induction false} ClaimsOfNodesFromClaims(ns: seq<Json>, base: string)
    ensures forall r | r in ClaimsOfNodes(ns, base) :: FromClaimNode(r, base)
  {
    if ns != [] {
      ClaimsOfNodesFromClaims(ns[1..], base);
    }
  }

  /** Without a throw, the graph walk emits exactly the claim nodes' records, in node order. */
  lemma {:induction false} WalkGraphsComplete(d: Dialect, gs: seq<Json>, base: string)
    requires d.nullSafe || JNull !in gs
    ensures WalkGraphs(d, gs, base) == Walk(ClaimsOfNodes(gs, base), true)
    decreases |gs|
  {
    if gs != [] {
      var init := gs[..|gs| - 1];
      var g := gs[|gs| - 1];
      assert gs == init + [g];
      assert JNull in init ==> JNull in gs;
      WalkGraphsComplete(d, init, base);
      ClaimsOfNodesAppend(init, [g], base);
      ClaimsOfNodesOne(g, base);
    }
  }

  /**
   * In the strict revision a throw at the first null node ends the walk with the
   * records of the nodes before it, whatever follows.
   */
  lemma {:induction false} WalkGraphsThrow(d: Dialect, pre: seq<Json>, post: seq<Json>, base: string)
    requires !d.nullSafe && JNull !in pre
    ensures WalkGraphs(d, pre + [JNull] + post, base) == Walk(ClaimsOfNodes(pre, base), false)
    decreases |post|
  {
    var gs := pre + [JNull] + post;
    if post == [] {
      WalkGraphsComplete(d, pre, base);
      assert gs[..|gs| - 1] == pre;
    } else {
      assert gs[..|gs| - 1] == pre + [JNull] + post[..|post| - 1];
      WalkGraphsThrow(d, pre, post[..|post| - 1], base);
    }
  }

  /** The nodes of the top-level items with `@graph` flattened, in order; None where a walk throws. */
  function Nodes(d: Dialect, its: seq<Json>): Option<seq<Json>>
    decreases |its|
  {
    if its == [] then Some([])
    else
      match Nodes(d, its[..|its| - 1])
      case None => None
      case Some(ns) =>
        match GraphsOf(d, its[|its| - 1])
        case None => None
        case Some(gs) => Some(ns + gs)
  }

  /**
   * A block whose items all flatten (and, in the strict revision, hold no null
   * node) yields the records of its claim nodes, a top-level array iterated and
   * every `@graph` flattened, in order.
   */
  lemma {:induction false} WalkItemsReference(d: Dialect, its: seq<Json>, base: string)
    requires Nodes(d, its).Some?
    requires d.nullSafe || JNull !in Nodes(d, its).value
    ensures WalkItems(d, its, base) == Walk(ClaimsOfNodes(Nodes(d, its).value, base), true)
    decreases |its|
  {
    if its != [] {
      var init := its[..|its| - 1];
      var ns := Nodes(d, init).value;
      var gs := GraphsOf(d, its[|its| - 1]).value;
      assert Nodes(d, its).value == ns + gs;
      assert JNull in ns ==> JNull in ns + gs;
      assert JNull in gs ==> JNull in ns + gs;
      WalkItemsReference(d, init, base);
      WalkGraphsComplete(d, gs, base);
      ClaimsOfNodesAppend(ns, gs, base);
    }
  }

  /** Every record a walk emits comes from a claim node. */
  lemma {:induction false} WalkGraphsOnlyClaims(d: Dialect, gs: seq<Json>, base: string)
    ensures forall r | r in WalkGraphs(d, gs, base).records :: FromClaimNode(r, base)
    decreases |gs|
  {
    if gs != [] {
      WalkGraphsOnlyClaims(d, gs[..|gs| - 1], base);
    }
  }

  lemma {:induction false} WalkItemsOnlyClaims(d: Dialect, its: seq<Json>, base: string)
    ensures forall r | r in WalkItems(d, its, base).records :: FromClaimNode(r, base)
    decreases |its|
  {
    if its != [] {
      WalkItemsOnlyClaims(d, its[..|its| - 1], base);
      var g := GraphsOf(d, its[|its| - 1]);
      if g.Some? {
        WalkGraphsOnlyClaims(d, g.value, base);
      }
    }
  }

  /** The extractor emits records only for `ClaimReview` nodes. */
  lemma {:induction false} ExtractOnlyClaims(d: Dialect, parse: string -> Option<Json>, blocks: seq<string>, base: string)
    ensures forall r | r in Extract(d, parse, blocks, base) :: FromClaimNode(r, base)
    decreases |blocks|
  {
    if blocks != [] {
      var init := blocks[..|blocks| - 1];
      var x := blocks[|blocks| - 1];
      assert blocks == init + [x];
      ExtractOnlyClaims(d, parse, init, base);
      ExtractSnoc(d, parse, init, x, base);
      var p := parse(Trim(x));
      if p.Some? {
        WalkItemsOnlyClaims(d, TopLevel(p.value), base);
      }
    }
  }

  /** The blocks are scanned in order, each contributing on its own. */
  lemma ExtractAppend(d: Dialect, parse: string -> Option<Json>, a: seq<string>, b: seq<string>, base: string)
    ensures Extract(d, parse, a + b, base) == Extract(d, parse, a, base) + Extract(d, parse, b, base)
  {
    Seqs.FlatMapAppend(a, b, BlockFn(d, parse, base));
  }

  lemma ExtractSnoc(d: Dialect, parse: string -> Option<Json>, s: seq<string>, x: string, base: string)
    ensures Extract(d, parse, s + [x], base) == Extract(d, parse, s, base) + BlockRecords(d, parse, x, base)
  {
    Seqs.FlatMapSnoc(s, x, BlockFn(d, parse, base));
  }

  /** A block that fails to parse contributes nothing, and the blocks after it are still scanned. */
  lemma UnparsableBlockSkipped(d: Dialect, parse: string -> Option<Json>, pre: seq<string>, block: string, post: seq<string>, base: string)
    requires parse(Trim(block)) == None
    ensures Extract(d, parse, pre + [block] + post, base) == Extract(d, parse, pre, base) + Extract(d, parse, post, base)
  {
    SilentBlock(d, parse, pre, block, post, base);
  }

  /** The lenient revision skips a block that is empty after `trim`, whatever the parser says of "". */
  lemma BlankBlockSkipped(parse: string -> Option<Json>, pre: seq<string>, block: string, post: seq<string>, base: string)
    requires Trim(block) == ""
    ensures Extract(Lenient, parse, pre + [block] + post, base) == Extract(Lenient, parse, pre, base) + Extract(Lenient, parse, post, base)
  {
    SilentBlock(Lenient, parse, pre, block, post, base);
  }

  /** A block that adds no records leaves the scan of the others as it was. */
  lemma SilentBlock(d: Dialect, parse: string -> Option<Json>, pre: seq<string>, block: string, post: seq<string>, base: string)
    requires BlockRecords(d, parse, block, base) == []
    ensures Extract(d, parse, pre + [block] + post, base) == Extract(d, parse, pre, base) + Extract(d, parse, post, base)
  {
    ExtractSnoc(d, parse, pre, block, base);
    ExtractAppend(d, parse, pre + [block], post, base);
    var e := Extract(d, parse, pre, base);
    assert e + [] == e;
  }

  lemma ExtractSingle(d: Dialect, parse: string -> Option<Json>, block: string, base: string)
    ensures Extract(d, parse, [block], base) == BlockRecords(d, parse, block, base)
  {
    ExtractSnoc(d, parse, [], block, base);
    assert [] + [block] == [block];
  }

  /** A page without JSON-LD blocks yields no records, so the caller falls back to the title. */
  lemma NoBlocksNoRecords(d: Dialect, parse: string -> Option<Json>, base: string)
    ensures Extract(d, parse, [], base) == []
  {
  }

  /**
   * Two blocks, one a `ClaimReview` node and one a node of another type: exactly
   * one record, from the first.
   */
  lemma OneValidOneUnrelated(d: Dialect, parse: string -> Option<Json>, b1: string, b2: string, n1: Json, n2: Json, base: string)
    requires Trim(b1) != "" && Trim(b2) != ""
    requires parse(Trim(b1)) == Some(n1) && parse(Trim(b2)) == Some(n2)
    requires n1.JObj? && Prop(n1, "@type") == JStr("ClaimReview") && !Truthy(Prop(n1, "@graph"))
    requires n2.JObj? && Prop(n2, "@type") == JStr("WebPage") && !Truthy(Prop(n2, "@graph"))
    ensures Extract(d, parse, [b1, b2], base) == [ClaimOf(n1, base)]
  {
    ExtractPair(d, parse, b1, b2, base);
    BlockOfNode(d, parse, b1, n1, base);
    BlockOfNode(d, parse, b2, n2, base);
    assert !IsClaimType(JStr("WebPage"));
    assert [ClaimOf(n1, base)] + [] == [ClaimOf(n1, base)];
  }

  /** Two blocks: the records of the first, then those of the second. */
  lemma ExtractPair(d: Dialect, parse: string -> Option<Json>, b1: string, b2: string, base: string)
    ensures Extract(d, parse, [b1, b2], base) == BlockRecords(d, parse, b1, base) + BlockRecords(d, parse, b2, base)
  {
    ExtractAppend(d, parse, [b1], [b2], base);
    ExtractSingle(d, parse, b1, base);
    ExtractSingle(d, parse, b2, base);
    assert [b1] + [b2] == [b1, b2];
  }

  /** A block holding one object without `@graph` adds that node's record if it is a `ClaimReview`. */
  lemma BlockOfNode(d: Dialect, parse: string -> Option<Json>, b: string, n: Json, base: string)
    requires Trim(b) != "" && parse(Trim(b)) == Some(n)
    requires n.JObj? && !Truthy(Prop(n, "@graph"))
    ensures BlockRecords(d, parse, b, base) == if IsClaimNode(n) then [ClaimOf(n, base)] else []
  {
    SingleNode(d, n, base);
    assert TopLevel(n) == [n];
  }

  /** A top-level object without `@graph` is its one node. */
  lemma SingleNode(d: Dialect, n: Json, base: string)
    requires n.JObj? && !Truthy(Prop(n, "@graph"))
    ensures WalkItems(d, [n], base) == Walk(if IsClaimNode(n) then [ClaimOf(n, base)] else [], true)
  {
    assert [n][..0] == [];
    assert GraphsOf(d, n) == Some([n]);
    assert WalkGraphs(d, [n], base) == Walk(if IsClaimNode(n) then [ClaimOf(n, base)] else [], true);
  }

  /**
   * The difference between the revisions: in a block `[null, c]` the strict walk
   * throws at `null` and loses `c`; the lenient walk skips `null` and keeps `c`.
   * In a block `[c, null]` both keep `c`.
   */
  lemma NullNodeContrast(c: Json, base: string)
    requires c.JObj? && IsClaimNode(c) && !Truthy(Prop(c, "@graph"))
    ensures WalkItems(Strict, [JNull, c], base).records == []
    ensures WalkItems(Lenient, [JNull, c], base).records == [ClaimOf(c, base)]
    ensures WalkItems(Strict, [c, JNull], base).records == [ClaimOf(c, base)]
    ensures WalkItems(Lenient, [c, JNull], base).records == [ClaimOf(c, base)]
  {
    assert [JNull, c][..1] == [JNull] && [c, JNull][..1] == [c];
    assert [JNull][..0] == [] && [c][..0] == [];
    assert WalkGraphs(Lenient, [JNull], base) == Walk([], true);
    assert WalkGraphs(Strict, [c], base) == Walk([ClaimOf(c, base)], true);
    assert WalkGraphs(Lenient, [c], base) == Walk([ClaimOf(c, base)], true);
    assert WalkItems(Lenient, [JNull], base) == Walk([], true);
    assert WalkItems(Strict, [c], base) == Walk([ClaimOf(c, base)], true);
    assert WalkItems(Lenient, [c], base) == Walk([ClaimOf(c, base)], true);
  }

  /** In the lenient revision a non-empty page URL leaves no record without a `reviewUrl`. */
  lemma LenientReviewUrl(g: Json, base: string)
    requires base != ""
    ensures Prop(g, "url").JStr? || !Truthy(Prop(g, "url")) ==> ClaimOf(g, base).reviewUrl != ""
    ensures Prop(g, "url").JStr? && Prop(g, "url").s != "" ==> ClaimOf(g, base).reviewUrl == Prop(g, "url").s
    ensures !Truthy(Prop(g, "url")) ==> ClaimOf(g, base).reviewUrl == base
  {
    var js := [Prop(g, "url"), JStr(base)];
    assert js[0] == Prop(g, "url") && js[1] == JStr(base);
    assert ClaimOf(g, base).reviewUrl == FirstOf(js);
    FirstOfTwo(Prop(g, "url"), JStr(base));
  }
}
