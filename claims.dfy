/**
 * The uniform claim record, the normaliser that maps a Google Fact Check Tools
 * `claims:search` payload onto records (`normalizeGoogleResults` in
 * worker/src/index.js, `normalizeResults` in the two backups: the three bodies
 * are the same code), and the case-insensitive query filter of the regional search.
 */
module Claims {
  import opened Js
  import Seqs

  /** One fact-check result, every field a string ("" when absent). */
  datatype ClaimRecord = ClaimRecord(
    text: string,
    claimant: string,
    claimDate: string,
    reviewPublisher: string,
    reviewUrl: string,
    rating: string,
    title: string)

  /** `{ query, results }` */
  datatype SearchResult = SearchResult(query: string, results: seq<ClaimRecord>)

  /** The record with every field empty. */
  const Blank := ClaimRecord("", "", "", "", "", "", "")

  /**
   * `a || b || ... || ""` in a record-field position: the first truthy value
   * decides; it gives the field when it is a string.
   */
  function FirstOf(js: seq<Json>): string {
    if js == [] then ""
    else if Truthy(js[0]) then Str(js[0])
    else FirstOf(js[1..])
  }

  /** The first truthy value gives the field; with none, the field is empty. */
  lemma {:induction false} FirstOfPicks(js: seq<Json>, i: nat)
    requires i <= |js|
    requires forall k | 0 <= k < i :: !Truthy(js[k])
    ensures i == |js| ==> FirstOf(js) == ""
    ensures i < |js| && Truthy(js[i]) ==> FirstOf(js) == Str(js[i])
  {
    if i > 0 {
      assert !Truthy(js[0]);
      FirstOfPicks(js[1..], i - 1);
    }
  }

  lemma FirstOfOne(a: Json)
    ensures FirstOf([a]) == if Truthy(a) then Str(a) else ""
  {
    assert [a][1..] == [];
  }

  lemma FirstOfTwo(a: Json, b: Json)
    ensures FirstOf([a, b]) == if Truthy(a) then Str(a) else if Truthy(b) then Str(b) else ""
  {
    assert [a, b][1..] == [b];
    FirstOfOne(b);
  }

  /** `(c.claimReview || [])[0] || {}` */
  function FirstReview(c: Json): Json {
    OrJ(Index0(OrJ(Prop(c, "claimReview"), JArr([]))), JObj(map[]))
  }

  /** The record of one review `r` of claim `c`. */
  function RecordOf(c: Json, r: Json): ClaimRecord {
    ClaimRecord(
      text := FirstOf([Prop(c, "text")]),
      claimant := FirstOf([Prop(c, "claimant")]),
      claimDate := FirstOf([Prop(c, "claimDate")]),
      reviewPublisher := FirstOf([Prop(Prop(r, "publisher"), "name")]),
      reviewUrl := FirstOf([Prop(r, "url")]),
      rating := FirstOf([Prop(r, "textualRating")]),
      title := FirstOf([Prop(r, "title"), Prop(r, "url")]))
  }

  /** One loop iteration: `c.text` on a null claim throws (None). */
  function NormalizeClaim(c: Json): (r: Option<ClaimRecord>)
    ensures r.Some? <==> c != JNull
  {
    if c == JNull then None else Some(RecordOf(c, FirstReview(c)))
  }

  /** `raw?.claims || []` */
  function ClaimsOf(raw: Json): Json {
    OrJ(Prop(raw, "claims"), JArr([]))
  }

  /**
   * `normalizeGoogleResults(query, raw)`; None where the function throws: a truthy
   * `claims` that is not iterable, or a null claim.
   */
  function NormalizeResults(query: string, raw: Json): Option<SearchResult> {
    match Iterate(ClaimsOf(raw))
    case None => None
    case Some(cs) =>
      match MapAll(cs, NormalizeClaim)
      case None => None
      case Some(rs) => Some(SearchResult(query, rs))
  }

  /** The `for...of` loop of `normalizeGoogleResults`, pushing one record per claim. */
  method NormalizeGoogleResults(query: string, raw: Json) returns (out: Option<SearchResult>)
    ensures out == NormalizeResults(query, raw)
  {
    var it := Iterate(ClaimsOf(raw));
    if it.None? {
      return None;
    }
    var cs := it.value;
    var results: seq<ClaimRecord> := [];
    for i := 0 to |cs|
      invariant MapAll(cs[..i], NormalizeClaim) == Some(results)
    {
      var c := cs[i];
      var record := NormalizeClaim(c);
      if record.None? {
        return None;
      }
      MapAllStep(cs, i, NormalizeClaim, results);
      results := results + [record.value];
    }
    assert cs[..|cs|] == cs;
    return Some(SearchResult(query, results));
  }

  /** Each claim becomes exactly one record, in claim order, and the query is echoed. */
  lemma NormalizeOnePerClaim(query: string, raw: Json, cs: seq<Json>)
    requires Prop(raw, "claims") == JArr(cs)
    requires forall i | 0 <= i < |cs| :: cs[i] != JNull
    ensures NormalizeResults(query, raw).Some?
    ensures NormalizeResults(query, raw).value.query == query
    ensures |NormalizeResults(query, raw).value.results| == |cs|
    ensures forall i | 0 <= i < |cs| ::
      NormalizeResults(query, raw).value.results[i] == RecordOf(cs[i], FirstReview(cs[i]))
  {
    var rs := MapAll(cs, NormalizeClaim).value;
    assert forall i | 0 <= i < |cs| :: NormalizeClaim(cs[i]) == Some(rs[i]);
  }

  /** A payload whose `claims` is absent (or empty, null, false, 0) gives no records. */
  lemma NormalizeNoClaims(query: string, raw: Json)
    requires !Truthy(Prop(raw, "claims"))
    ensures NormalizeResults(query, raw) == Some(SearchResult(query, []))
  {
  }

  /** The normaliser fails exactly on a truthy non-iterable `claims` or a null claim. */
  lemma NormalizeFails(query: string, raw: Json)
    ensures NormalizeResults(query, raw).None? <==>
      Iterate(ClaimsOf(raw)).None? ||
      exists i | 0 <= i < |Iterate(ClaimsOf(raw)).value| :: Iterate(ClaimsOf(raw)).value[i] == JNull
  {
  }

  /** Only `claimReview[0]` is read: reviews after the first change nothing. */
  lemma FirstReviewOnly(c: Json, r0: Json, rest: seq<Json>, more: seq<Json>)
    requires c.JObj? && "claimReview" in c.fields && c.fields["claimReview"] == JArr([r0] + rest)
    ensures NormalizeClaim(c) == NormalizeClaim(JObj(c.fields["claimReview" := JArr([r0] + more)]))
  {
    var c' := JObj(c.fields["claimReview" := JArr([r0] + more)]);
    assert Prop(c, "claimReview") == JArr([r0] + rest);
    assert Prop(c', "claimReview") == JArr([r0] + more);
    assert Index0(JArr([r0] + rest)) == r0 == Index0(JArr([r0] + more));
    assert FirstReview(c) == FirstReview(c');
    assert Prop(c, "text") == Prop(c', "text");
    assert Prop(c, "claimant") == Prop(c', "claimant");
    assert Prop(c, "claimDate") == Prop(c', "claimDate");
  }

  /** A claim without reviews gets empty review fields. */
  lemma NoReviewBlank(c: Json)
    requires c != JNull
    requires Prop(c, "claimReview") == JNull || Prop(c, "claimReview") == JArr([])
    ensures var r := NormalizeClaim(c).value;
      r.reviewPublisher == "" && r.reviewUrl == "" && r.rating == "" && r.title == ""
  {
    assert FirstReview(c) == JObj(map[]);
    FirstOfOne(JNull);
    FirstOfTwo(JNull, JNull);
  }

  /**
   * Each field is its `||` chain read left to right: `title` is `r.title`,
   * else `r.url`, else `""`; every other field is its one source, or `""`
   * when that is falsy (absent, null, empty, false or 0), whatever else the
   * review carries.
   */
  lemma TitleChain(c: Json)
    requires c != JNull
    ensures var r := FirstReview(c);
      var t := Prop(r, "title");
      var u := Prop(r, "url");
      var rec := NormalizeClaim(c).value;
      rec.title == (if Truthy(t) then Str(t) else if Truthy(u) then Str(u) else "") &&
      rec.reviewUrl == (if Truthy(u) then Str(u) else "")
    ensures var r := FirstReview(c);
      var p := Prop(Prop(r, "publisher"), "name");
      var g := Prop(r, "textualRating");
      var rec := NormalizeClaim(c).value;
      rec.reviewPublisher == (if Truthy(p) then Str(p) else "") &&
      rec.rating == (if Truthy(g) then Str(g) else "")
    ensures var rec := NormalizeClaim(c).value;
      (Truthy(Prop(c, "text")) ==> rec.text == Str(Prop(c, "text"))) &&
      (!Truthy(Prop(c, "text")) ==> rec.text == "") &&
      (Truthy(Prop(c, "claimant")) ==> rec.claimant == Str(Prop(c, "claimant"))) &&
      (!Truthy(Prop(c, "claimant")) ==> rec.claimant == "") &&
      (Truthy(Prop(c, "claimDate")) ==> rec.claimDate == Str(Prop(c, "claimDate"))) &&
      (!Truthy(Prop(c, "claimDate")) ==> rec.claimDate == "")
  {
    var r := FirstReview(c);
    FirstOfTwo(Prop(r, "title"), Prop(r, "url"));
    FirstOfOne(Prop(r, "url"));
    FirstOfOne(Prop(Prop(r, "publisher"), "name"));
    FirstOfOne(Prop(r, "textualRating"));
    FirstOfOne(Prop(c, "text"));
    FirstOfOne(Prop(c, "claimant"));
    FirstOfOne(Prop(c, "claimDate"));
  }

  /**
   * The end-to-end example: one claim "the earth is flat" reviewed by Snopes
   * with rating "False".
   */
  lemma EarthIsFlat()
    ensures var review := JObj(map[
        "publisher" := JObj(map["name" := JStr("Snopes")]),
        "textualRating" := JStr("False")]);
      var claim := JObj(map["text" := JStr("the earth is flat"), "claimReview" := JArr([review])]);
      NormalizeResults("the earth is flat", JObj(map["claims" := JArr([claim])]))
      == Some(SearchResult("the earth is flat",
        [ClaimRecord("the earth is flat", "", "", "Snopes", "", "False", "")]))
  {
    var review := JObj(map[
      "publisher" := JObj(map["name" := JStr("Snopes")]),
      "textualRating" := JStr("False")]);
    var claim := JObj(map["text" := JStr("the earth is flat"), "claimReview" := JArr([review])]);
    var raw := JObj(map["claims" := JArr([claim])]);
    assert Prop(raw, "claims") == JArr([claim]);
    NormalizeOnePerClaim("the earth is flat", raw, [claim]);
    EarthIsFlatRecord(review, claim);
    var out := NormalizeResults("the earth is flat", raw).value;
    assert out.results == [ClaimRecord("the earth is flat", "", "", "Snopes", "", "False", "")];
  }

  lemma EarthIsFlatRecord(review: Json, claim: Json)
    requires review == JObj(map["publisher" := JObj(map["name" := JStr("Snopes")]), "textualRating" := JStr("False")])
    requires claim == JObj(map["text" := JStr("the earth is flat"), "claimReview" := JArr([review])])
    ensures RecordOf(claim, FirstReview(claim)) == ClaimRecord("the earth is flat", "", "", "Snopes", "", "False", "")
  {
    assert FirstReview(claim) == review;
    var rec := RecordOf(claim, review);
    assert rec.text == "the earth is flat" by {
      assert Prop(claim, "text") == JStr("the earth is flat");
      FirstOfOne(JStr("the earth is flat"));
    }
    assert rec.claimant == "" && rec.claimDate == "" by {
      assert Prop(claim, "claimant") == JNull && Prop(claim, "claimDate") == JNull;
      FirstOfOne(JNull);
    }
    assert rec.reviewPublisher == "Snopes" by {
      assert Prop(Prop(review, "publisher"), "name") == JStr("Snopes");
      FirstOfOne(JStr("Snopes"));
    }
    assert rec.rating == "False" by {
      assert Prop(review, "textualRating") == JStr("False");
      FirstOfOne(JStr("False"));
    }
    assert rec.reviewUrl == "" && rec.title == "" by {
      assert Prop(review, "url") == JNull && Prop(review, "title") == JNull;
      FirstOfOne(JNull);
      FirstOfTwo(JNull, JNull);
    }
  }

  /** `(s || "").toLowerCase().includes(query.toLowerCase())` on title or text. */
  predicate MatchesQuery(query: string, r: ClaimRecord) {
    Contains(Lower(r.title), Lower(query)) || Contains(Lower(r.text), Lower(query))
  }

  /** `query ? rs.filter(matches) : rs` */
  function FilterByQuery(query: string, rs: seq<ClaimRecord>): seq<ClaimRecord> {
    if query == "" then rs else Seqs.Filter(rs, r => MatchesQuery(query, r))
  }

  /** An empty query keeps everything. */
  lemma FilterEmptyQuery(rs: seq<ClaimRecord>)
    ensures FilterByQuery("", rs) == rs
  {
  }

  /**
   * With a non-empty query, the survivors are exactly the records whose
   * lower-cased title or text contains the lower-cased query.
   */
  lemma FilterSurvivors(query: string, rs: seq<ClaimRecord>)
    requires query != ""
    ensures forall r :: r in FilterByQuery(query, rs) <==> r in rs && MatchesQuery(query, r)
  {
    Seqs.FilterMembers(rs, r => MatchesQuery(query, r));
  }

  /** The filter keeps input order: it distributes over concatenation. */
  lemma FilterKeepsOrder(query: string, a: seq<ClaimRecord>, b: seq<ClaimRecord>)
    ensures FilterByQuery(query, a + b) == FilterByQuery(query, a) + FilterByQuery(query, b)
  {
    if query != "" {
      Seqs.FilterAppend(a, b, r => MatchesQuery(query, r));
    }
  }

  /** Matching ignores ASCII case: a title equal to the query up to case matches. */
  lemma MatchIgnoresCase(query: string, r: ClaimRecord)
    requires Lower(r.title) == Lower(query)
    ensures MatchesQuery(query, r)
  {
    assert OccursAt(Lower(r.title), Lower(query), 0);
  }
}
