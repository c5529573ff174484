/**
 * docs/docs/app.js: the front end with Nigeria mode and smart fallbacks.
 * `smartFactChecks` stops at six merged results; the submit handler asks the
 * regional endpoint or the variant grid first, and the other only when the
 * first gave nothing; `buildScript` shows up to six bullets.
 */
module App {
  import opened Js
  import opened Claims
  import Smart
  import Script

  const Threshold := 6
  const BulletCap := 6

  /** `r.title || r.text || "Untitled"`: never empty. */
  function Label(r: ClaimRecord): (l: string)
    ensures l != ""
    ensures l == (if r.title != "" then r.title else if r.text != "" then r.text else "Untitled")
  {
    Or(Or(r.title, r.text), "Untitled")
  }

  /** `- ${r.title || r.text || "Untitled"}${rating}${pub}${link}` */
  function Bullet(r: ClaimRecord): string {
    Script.SourceBullet(Label(r), r)
  }

  const Fallback := "- No verified reviews found. Consider rephrasing the query or trying Nigeria mode."

  /** `bullets || "- No verified reviews found. ..."` */
  function Findings(rs: seq<ClaimRecord>): string {
    Or(Join(Script.Bullets(rs, BulletCap, Bullet), "\n"), Fallback)
  }

  function Hook(topic: string): string {
    "HOOK: " + topic + "? Let's check what fact-checkers and trusted sources say."
  }

  function Opening(topic: string): seq<string> {
    [Hook(topic), "\nCONTEXT (5\U{2013}8s):", "\U{2022} Here's the claim and what reviewers report.", "", "FINDINGS (15\U{2013}30s):"]
  }

  const Closing: seq<string> := [
    "",
    "NUANCE (5\U{2013}10s):",
    "\U{2022} Ratings vary by context, date, and wording. Always open the source.",
    "",
    "OUTRO (3\U{2013}5s):",
    "Thanks for watching. Like & follow for more verified explainers."]

  /** `buildScript(topic, normalized)` */
  function BuildScript(topic: string, rs: seq<ClaimRecord>): string {
    Join(Opening(topic) + [Findings(rs)] + Closing, "\n")
  }

  /**
   * The script is the fixed opening (starting with the HOOK line), the
   * findings and the fixed closing; the findings are the bullets of the first
   * six results, or the "No verified reviews" line exactly when there are none.
   */
  lemma ScriptLayout(topic: string, rs: seq<ClaimRecord>)
    ensures BuildScript(topic, rs) == Join(Opening(topic), "\n") + "\n" + Findings(rs) + "\n" + Join(Closing, "\n")
    ensures rs == [] ==> Findings(rs) == Fallback
    ensures rs != [] ==> Findings(rs) == Join(Script.Bullets(rs, BulletCap, Bullet), "\n")
    ensures |Hook(topic)| <= |BuildScript(topic, rs)| && BuildScript(topic, rs)[..|Hook(topic)|] == Hook(topic)
  {
    Script.JoinAround(Opening(topic), Findings(rs), Closing);
    Script.BulletsEmpty(rs, BulletCap, Bullet);
    Script.JoinStartsWith(Opening(topic) + [Findings(rs)] + Closing, "\n");
  }

  datatype Badge = FactCheck | RelatedArticle

  /** The badge of `renderResults`: `r.rating && r.rating.trim()`. */
  function BadgeOf(r: ClaimRecord): (b: Badge)
    ensures b == FactCheck <==> Trim(r.rating) != ""
  {
    if r.rating != "" && Trim(r.rating) != "" then FactCheck else RelatedArticle
  }

  /** A rating of only whitespace still counts as no verdict. */
  lemma BlankRatingIsRelated(r: ClaimRecord)
    requires r.rating != "" && forall i | 0 <= i < |r.rating| :: IsSpace(r.rating[i])
    ensures BadgeOf(r) == RelatedArticle
  {
  }

  /** A call the submit handler makes: `fetchNigeria(query)` or `smartFactChecks(query, lang.value)`. */
  datatype Call = Regional(query: string) | Global(query: string, lang: string)

  /** `fetchNigeria(query)`: None where it throws. */
  type Regional = string -> Option<seq<ClaimRecord>>

  /** What the page ends with: nothing (empty query), the error status, or a list of results. */
  datatype Display = Ignored | Failed | Shown(results: seq<ClaimRecord>)

  datatype Submission = Submission(calls: seq<Call>, display: Display)

  /** The submit handler. `smartFactChecks` catches every failure itself; `fetchNigeria` does not. */
  function Submit(search: Smart.Search, regional: Regional, input: string, sel: string, ngMode: bool): Submission {
    var query := Trim(input);
    if query == "" then Submission([], Ignored)
    else if ngMode then
      match regional(query)
      case None => Submission([Regional(query)], Failed)
      case Some(ng) =>
        if ng != [] then Submission([Regional(query)], Shown(ng))
        else Submission([Regional(query), Global(query, sel)], Shown(Smart.SmartResults(search, query, sel, Threshold)))
    else
      var g := Smart.SmartResults(search, query, sel, Threshold);
      if g != [] then Submission([Global(query, sel)], Shown(g))
      else
        match regional(query)
        case None => Submission([Global(query, sel), Regional(query)], Failed)
        case Some(ng) => Submission([Global(query, sel), Regional(query)], Shown(ng))
  }

  /** The handler as the page runs it, `merged.results` reassigned along the way. */
  method SubmitSearch(search: Smart.Search, regional: Regional, input: string, sel: string, ngMode: bool)
    returns (s: Submission)
    ensures s == Submit(search, regional, input, sel, ngMode)
  {
    var query := Trim(input);
    if query == "" {
      return Submission([], Ignored);
    }
    var calls: seq<Call> := [];
    var merged: seq<ClaimRecord> := [];
    if ngMode {
      calls := calls + [Regional(query)];
      var ng := regional(query);
      if ng.None? {
        return Submission(calls, Failed);
      }
      merged := ng.value;
      if |merged| == 0 {
        calls := calls + [Global(query, sel)];
        var g := Smart.SmartFactChecks(search, query, sel, Threshold);
        merged := merged + g.results;
        assert merged == g.results;
      }
    } else {
      calls := calls + [Global(query, sel)];
      var g := Smart.SmartFactChecks(search, query, sel, Threshold);
      merged := g.results;
      if |merged| == 0 {
        calls := calls + [Regional(query)];
        var ng := regional(query);
        if ng.None? {
          return Submission(calls, Failed);
        }
        merged := merged + ng.value;
        assert merged == ng.value;
      }
    }
    return Submission(calls, Shown(merged));
  }

  /** A blank query does nothing; any other query makes one or two calls. */
  lemma BlankQueryIgnored(search: Smart.Search, regional: Regional, input: string, sel: string, ngMode: bool)
    ensures var s := Submit(search, regional, input, sel, ngMode);
      (s.display == Ignored <==> Trim(input) == "") &&
      (s.display == Ignored ==> s.calls == []) &&
      (s.display != Ignored ==> 1 <= |s.calls| <= 2)
  {
  }

  /**
   * Nigeria mode: the regional endpoint is asked first, and the variant grid
   * runs exactly when it answered with no results.
   */
  lemma RegionalFirst(search: Smart.Search, regional: Regional, input: string, sel: string)
    requires Trim(input) != ""
    ensures var s := Submit(search, regional, Trim(input), sel, true);
      var query := Trim(input);
      s.calls[0] == Regional(query) &&
      (Global(query, sel) in s.calls <==> regional(query) == Some([])) &&
      (regional(query).Some? && regional(query).value != [] ==> s.display == Shown(regional(query).value))
  {
    TrimTwice(input);
  }

  /**
   * Otherwise: the variant grid runs first, and the regional endpoint is asked
   * exactly when the grid found nothing.
   */
  lemma GlobalFirst(search: Smart.Search, regional: Regional, input: string, sel: string)
    requires Trim(input) != ""
    ensures var s := Submit(search, regional, Trim(input), sel, false);
      var query := Trim(input);
      var g := Smart.SmartResults(search, query, sel, Threshold);
      s.calls[0] == Global(query, sel) &&
      (Regional(query) in s.calls <==> g == []) &&
      (g != [] ==> s.display == Shown(g))
  {
    TrimTwice(input);
  }

  /** The error status is shown exactly when `fetchNigeria` was called and threw. */
  lemma FailsOnlyOnRegionalError(search: Smart.Search, regional: Regional, input: string, sel: string, ngMode: bool)
    ensures var s := Submit(search, regional, input, sel, ngMode);
      s.display == Failed <==> Regional(Trim(input)) in s.calls && regional(Trim(input)).None?
  {
  }

  /** Trimming is idempotent. */
  lemma TrimTwice(s: string)
    ensures Trim(Trim(s)) == Trim(s)
  {
  }
}
