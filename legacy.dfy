/**
 * main.js: the first page, which renders the raw `claims` of a search
 * response. `escapeHtml` replaces the five HTML-special characters by their
 * entities; `claimBlock` shows the first review of a claim; `renderResults`
 * shows a count header and the blocks, or a message when there are no claims.
 */
module Legacy {
  import opened Js

  /** The characters `/[&<>"']/g` matches. */
  predicate Special(c: char) {
    c == '&' || c == '<' || c == '>' || c == '"' || c == '\''
  }

  /** The characters that must not survive escaping (an `&` survives as the head of an entity). */
  predicate Unsafe(c: char) {
    c == '<' || c == '>' || c == '"' || c == '\''
  }

  /** The replacement for one character. */
  function Entity(c: char): (e: string)
    ensures |e| >= 1
    ensures Special(c) ==> |e| > 1 && e[0] == '&'
    ensures !Special(c) ==> e == [c]
    ensures forall i | 0 <= i < |e| :: !Unsafe(e[i])
  {
    match c
    case '&' => "&amp;"
    case '<' => "&lt;"
    case '>' => "&gt;"
    case '"' => "&quot;"
    case '\'' => "&#39;"
    case _ => [c]
  }

  /** `escapeHtml(str)` on `String(str)`: every character replaced by its entity, left to right. */
  function Escape(s: string): string
    decreases |s|
  {
    if s == [] then [] else Entity(s[0]) + Escape(s[1..])
  }

  predicate StartsWith(s: string, t: string) {
    |t| <= |s| && s[..|t|] == t
  }

  /** Decoding of the five entities, the partner of `Escape`. */
  function Unescape(r: string): string
    decreases |r|
  {
    if r == [] then []
    else if StartsWith(r, "&amp;") then "&" + Unescape(r[5..])
    else if StartsWith(r, "&lt;") then "<" + Unescape(r[4..])
    else if StartsWith(r, "&gt;") then ">" + Unescape(r[4..])
    else if StartsWith(r, "&quot;") then "\"" + Unescape(r[6..])
    else if StartsWith(r, "&#39;") then "'" + Unescape(r[5..])
    else [r[0]] + Unescape(r[1..])
  }

  /** Decoding undoes one character's replacement whatever follows it. */
  lemma UnescapeEntity(c: char, rest: string)
    ensures Unescape(Entity(c) + rest) == [c] + Unescape(rest)
  {
    match c
    case '&' => UnescapeAmp(rest);
    case '<' => UnescapeLt(rest);
    case '>' => UnescapeGt(rest);
    case '"' => UnescapeQuot(rest);
    case '\'' => UnescapeApos(rest);
    case _ => UnescapePlain(c, rest);
  }

  lemma UnescapeAmp(rest: string)
    ensures Unescape("&amp;" + rest) == "&" + Unescape(rest)
  {
    var r := "&amp;" + rest;
    assert r[..5] == "&amp;" && r[5..] == rest;
  }

  lemma UnescapeLt(rest: string)
    ensures Unescape("&lt;" + rest) == "<" + Unescape(rest)
  {
    var r := "&lt;" + rest;
    assert r[1] == 'l';
    assert r[..4] == "&lt;" && r[4..] == rest;
  }

  lemma UnescapeGt(rest: string)
    ensures Unescape("&gt;" + rest) == ">" + Unescape(rest)
  {
    var r := "&gt;" + rest;
    assert r[1] == 'g';
    assert r[..4] == "&gt;" && r[4..] == rest;
  }

  lemma UnescapeQuot(rest: string)
    ensures Unescape("&quot;" + rest) == "\"" + Unescape(rest)
  {
    var r := "&quot;" + rest;
    assert r[1] == 'q';
    assert r[..6] == "&quot;" && r[6..] == rest;
  }

  lemma UnescapeApos(rest: string)
    ensures Unescape("&#39;" + rest) == "'" + Unescape(rest)
  {
    var r := "&#39;" + rest;
    assert r[1] == '#';
    assert r[..5] == "&#39;" && r[5..] == rest;
  }

  lemma UnescapePlain(c: char, rest: string)
    requires !Special(c)
    ensures Unescape([c] + rest) == [c] + Unescape(rest)
  {
    var r := [c] + rest;
    assert r[0] == c && r[1..] == rest;
    assert !StartsWith(r, "&amp;") && !StartsWith(r, "&lt;") && !StartsWith(r, "&gt;");
    assert !StartsWith(r, "&quot;") && !StartsWith(r, "&#39;");
  }

  /** Escaping loses nothing: decoding gives the input back. */
  lemma {:induction false} EscapeRoundTrip(s: string)
    ensures Unescape(Escape(s)) == s
    decreases |s|
  {
    if s != [] {
      EscapeRoundTrip(s[1..]);
      UnescapeEntity(s[0], Escape(s[1..]));
      assert [s[0]] + s[1..] == s;
    }
  }

  /** None of `<`, `>`, `"`, `'` is left in the output. */
  lemma {:induction false} EscapeSafe(s: string)
    ensures forall i | 0 <= i < |Escape(s)| :: !Unsafe(Escape(s)[i])
    decreases |s|
  {
    if s != [] {
      EscapeSafe(s[1..]);
      var e := Entity(s[0]);
      var r := Escape(s[1..]);
      forall i | 0 <= i < |e + r| ensures !Unsafe((e + r)[i]) {
        if i >= |e| {
          assert (e + r)[i] == r[i - |e|];
        }
      }
    }
  }

  /**
   * The output is at least as long as the input, and exactly as long, or
   * equal to it, if and only if none of the five characters occurs.
   */
  lemma {:induction false} EscapeLength(s: string)
    ensures |Escape(s)| >= |s|
    ensures |Escape(s)| == |s| <==> forall i | 0 <= i < |s| :: !Special(s[i])
    ensures Escape(s) == s <==> forall i | 0 <= i < |s| :: !Special(s[i])
    decreases |s|
  {
    if s != [] {
      EscapeLength(s[1..]);
      var tail := s[1..];
      assert forall i | 1 <= i < |s| :: s[i] == tail[i - 1];
      if (forall i | 0 <= i < |s| :: !Special(s[i])) {
        assert forall i | 0 <= i < |tail| :: !Special(tail[i]) by {
          forall i | 0 <= i < |tail| ensures !Special(tail[i]) {
            assert tail[i] == s[i + 1];
          }
        }
        assert [s[0]] + tail == s;
      } else {
        if !Special(s[0]) {
          var k :| 0 <= k < |s| && Special(s[k]);
          assert Special(tail[k - 1]);
        }
        assert |Escape(s)| > |s|;
      }
    }
  }

  /** `String(x)`, where a missing property is undefined. */
  function StringOf(o: Option<Json>): string {
    if o.None? then "undefined" else JsString(o.value)
  }

  /** `(c.claimReview || [])[0] || {}` */
  function Top(c: Json): Json {
    OrJ(Index0(OrJ(Prop(c, "claimReview"), JArr([]))), JObj(map[]))
  }

  /** `top.textualRating || 'Unrated'`, as `escapeHtml` stringifies it. */
  function RatingText(c: Json): string {
    JsString(OrJ(Prop(Top(c), "textualRating"), JStr("Unrated")))
  }

  /** `c.text || '(no text)'`, stringified. */
  function TextOf(c: Json): string {
    JsString(OrJ(Prop(c, "text"), JStr("(no text)")))
  }

  /** `top.publisher || ''`, stringified: an object prints as "[object Object]". */
  function PublisherAsWritten(c: Json): string {
    JsString(OrJ(Prop(Top(c), "publisher"), JStr("")))
  }

  /** `top.publisher?.name || ''`: the name of the reviewing organisation. */
  function Publisher(c: Json): string {
    JsString(OrJ(Prop(Prop(Top(c), "publisher"), "name"), JStr("")))
  }

  /** The link line, present when `top.url` is truthy (inserted without escaping). */
  function Link(c: Json): string {
    var u := Prop(Top(c), "url");
    if Truthy(u) then "<div><a href=\"" + JsString(u) + "\" target=\"_blank\">Read fact-check</a></div>" else ""
  }

  function Block(text: string, pub: string, rating: string, link: string): string {
    "\n  <div class=\"result\">\n    <div><strong>" + Escape(text) + "</strong></div>\n    <div>Source: " +
      Escape(pub) + " <span>[" + Escape(rating) + "]</span></div>\n    " + link + "\n  </div>"
  }

  /** `claimBlock(c)` as written; reading a property of a null claim throws (None). */
  function ClaimBlockAsWritten(c: Json): Option<string> {
    if c == JNull then None else Some(Block(TextOf(c), PublisherAsWritten(c), RatingText(c), Link(c)))
  }

  /** `claimBlock(c)` showing the publisher's name. */
  function ClaimBlock(c: Json): Option<string> {
    if c == JNull then None else Some(Block(TextOf(c), Publisher(c), RatingText(c), Link(c)))
  }

  /** A review of the shape the fact-check search returns: the publisher is an object with a name. */
  function ReviewedClaim(text: string, name: string, rating: string): Json {
    JObj(map["text" := JStr(text),
      "claimReview" := JArr([JObj(map["publisher" := JObj(map["name" := JStr(name)]), "textualRating" := JStr(rating)])])])
  }

  /** As written, the Source line of every such claim reads "[object Object]". */
  lemma PublisherShownAsObject(text: string, name: string, rating: string)
    requires text != "" && rating != ""
    ensures PublisherAsWritten(ReviewedClaim(text, name, rating)) == "[object Object]"
    ensures ClaimBlockAsWritten(ReviewedClaim(text, name, rating)) ==
      Some(Block(text, "[object Object]", rating, ""))
  {
    ReviewedParts(text, name, rating);
  }

  /** Corrected, it reads the publisher's name. */
  lemma PublisherShownByName(text: string, name: string, rating: string)
    requires text != "" && rating != ""
    ensures Publisher(ReviewedClaim(text, name, rating)) == name
    ensures ClaimBlock(ReviewedClaim(text, name, rating)) == Some(Block(text, name, rating, ""))
  {
    ReviewedParts(text, name, rating);
  }

  /** The fields `claimBlock` reads from such a claim. */
  lemma ReviewedParts(text: string, name: string, rating: string)
    requires text != "" && rating != ""
    ensures var c := ReviewedClaim(text, name, rating);
      Prop(Top(c), "publisher") == JObj(map["name" := JStr(name)]) &&
      TextOf(c) == text && RatingText(c) == rating && Link(c) == ""
  {
    var c := ReviewedClaim(text, name, rating);
    var review := JObj(map["publisher" := JObj(map["name" := JStr(name)]), "textualRating" := JStr(rating)]);
    assert Prop(c, "claimReview") == JArr([review]);
    assert Top(c) == review;
    assert Prop(review, "url") == JNull;
    assert Prop(c, "text") == JStr(text);
  }

  /** Only the first review is read: dropping the others changes nothing. */
  lemma FirstReviewOnly(fields: map<string, Json>, reviews: seq<Json>)
    requires "claimReview" in fields && fields["claimReview"] == JArr(reviews) && reviews != []
    ensures ClaimBlock(JObj(fields)) == ClaimBlock(JObj(fields["claimReview" := JArr([reviews[0]])]))
    ensures ClaimBlockAsWritten(JObj(fields)) == ClaimBlockAsWritten(JObj(fields["claimReview" := JArr([reviews[0]])]))
  {
    var c' := JObj(fields["claimReview" := JArr([reviews[0]])]);
    assert Top(JObj(fields)) == Top(c');
    assert Prop(JObj(fields), "text") == Prop(c', "text");
  }

  /**
   * Without a (truthy) `textualRating` the rating reads "Unrated"; a non-empty
   * string rating is shown as it is. Without text the claim reads "(no text)".
   */
  lemma Defaults(c: Json)
    ensures !Truthy(Prop(Top(c), "textualRating")) ==> RatingText(c) == "Unrated"
    ensures Prop(Top(c), "textualRating").JStr? && Prop(Top(c), "textualRating").s != "" ==>
      RatingText(c) == Prop(Top(c), "textualRating").s
    ensures !Truthy(Prop(c, "text")) ==> TextOf(c) == "(no text)"
  {
  }

  /** A claim with no reviews still gets a block, "Unrated" and without a link. */
  lemma NoReviews(c: Json)
    requires c.JObj? && !Truthy(Prop(c, "claimReview"))
    ensures RatingText(c) == "Unrated" && Link(c) == "" && Publisher(c) == ""
  {
    assert Top(c) == JObj(map[]);
  }

  /**
   * `claims.map(c => claimBlock(c))`: one block per claim, None if any claim
   * is null; the same holds for the block that shows the publisher's name.
   */
  lemma Blocks(cs: seq<Json>)
    ensures var r := MapAll(cs, ClaimBlockAsWritten);
      (r.Some? <==> forall i | 0 <= i < |cs| :: cs[i] != JNull) &&
      (r.Some? ==> |r.value| == |cs| && forall i | 0 <= i < |cs| :: Some(r.value[i]) == ClaimBlockAsWritten(cs[i]))
    ensures var r := MapAll(cs, ClaimBlock);
      (r.Some? <==> forall i | 0 <= i < |cs| :: cs[i] != JNull) &&
      (r.Some? ==> |r.value| == |cs| && forall i | 0 <= i < |cs| :: Some(r.value[i]) == ClaimBlock(cs[i]))
  {
    assert forall i | 0 <= i < |cs| :: ClaimBlockAsWritten(cs[i]).Some? <==> cs[i] != JNull;
    assert forall i | 0 <= i < |cs| :: ClaimBlock(cs[i]).Some? <==> cs[i] != JNull;
  }

  function NoFactChecks(query: string): string {
    "<p>No fact-checks found for \U{201C}<strong>" + Escape(query) + "</strong>\U{201D}.</p>"
  }

  /**
   * The body of `renderResults(data)` with `block` in the place of
   * `claimBlock`: the markup it writes, or None where it throws (null `data`
   * or `claims`, or a `claims` with a length but no `map`).
   */
  function RenderWith(data: Json, block: Json -> Option<string>): Option<string> {
    if data == JNull then None
    else
      var claims := Get(data, "claims").GetOr(JArr([]));
      var query := StringOf(Get(data, "query"));
      match claims
      case JNull => None
      case JArr(cs) =>
        if cs == [] then Some(NoFactChecks(query))
        else
          var blocks := MapAll(cs, block);
          if blocks.None? then None
          else Some("<h2>Results (" + NatToString(|cs|) + ")</h2>" + Join(blocks.value, ""))
      case JStr(s) => if s == "" then Some(NoFactChecks(query)) else None
      case JObj(m) => if Truthy(Get(claims, "length").GetOr(JNull)) then None else Some(NoFactChecks(query))
      case _ => Some(NoFactChecks(query))
  }

  /** `renderResults(data)` as written, mapping `claimBlock` as written. */
  function RenderResults(data: Json): Option<string> {
    RenderWith(data, ClaimBlockAsWritten)
  }

  /** `renderResults(data)` with the block that shows the publisher's name. */
  function RenderResultsIntended(data: Json): Option<string> {
    RenderWith(data, ClaimBlock)
  }

  /** No claims (absent or empty): the message naming the escaped query, in both pages. */
  lemma RenderEmpty(data: Json)
    requires data.JObj?
    requires Get(data, "claims").None? || Get(data, "claims") == Some(JArr([]))
    ensures RenderResults(data) == Some(NoFactChecks(StringOf(Get(data, "query"))))
    ensures RenderResultsIntended(data) == Some(NoFactChecks(StringOf(Get(data, "query"))))
  {
  }

  /**
   * Claims present: a header whose count is the number of claims, then one
   * block per claim, in order, built by `claimBlock` as written (and, on the
   * intended page, by the block showing the publisher's name).
   */
  lemma RenderCount(data: Json, cs: seq<Json>)
    requires data.JObj? && Get(data, "claims") == Some(JArr(cs)) && cs != []
    requires forall i | 0 <= i < |cs| :: cs[i] != JNull
    ensures var r := RenderResults(data);
      var header := "<h2>Results (" + NatToString(|cs|) + ")</h2>";
      r.Some? && |header| <= |r.value| && r.value[..|header|] == header &&
      r.value == header + Join(MapAll(cs, ClaimBlockAsWritten).value, "")
    ensures var r := RenderResultsIntended(data);
      r.Some? && r.value == "<h2>Results (" + NatToString(|cs|) + ")</h2>" + Join(MapAll(cs, ClaimBlock).value, "")
  {
    Blocks(cs);
  }

  /**
   * The finding on a whole page: one claim reviewed by an organisation gives
   * "Source: [object Object]" as written and the organisation's name as intended.
   */
  lemma RenderShowsObject(text: string, name: string, rating: string)
    requires text != "" && rating != ""
    ensures var data := JObj(map["claims" := JArr([ReviewedClaim(text, name, rating)])]);
      var header := "<h2>Results (" + NatToString(1) + ")</h2>";
      RenderResults(data) == Some(header + Block(text, "[object Object]", rating, "")) &&
      RenderResultsIntended(data) == Some(header + Block(text, name, rating, ""))
  {
    var c := ReviewedClaim(text, name, rating);
    var data := JObj(map["claims" := JArr([c])]);
    assert Get(data, "claims") == Some(JArr([c]));
    RenderCount(data, [c]);
    PublisherShownAsObject(text, name, rating);
    PublisherShownByName(text, name, rating);
    var shown := MapAll([c], ClaimBlockAsWritten).value;
    var named := MapAll([c], ClaimBlock).value;
    assert shown == [Block(text, "[object Object]", rating, "")];
    assert named == [Block(text, name, rating, "")];
    assert Join(shown, "") == shown[0];
    assert Join(named, "") == named[0];
  }
}
