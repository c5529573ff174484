/**
 * docs/app.js: the front end with Nigeria mode and "Related Article" labels.
 * Every request goes through `api`, which throws on a non-ok status and is not
 * caught anywhere inside the fallback chain of the submit handler.
 */
module Front {
  import opened Js
  import opened Claims
  import Seqs
  import Script

  /** `api(base, path, params)`: the parameters with a value other than null or undefined, as strings. */
  function ApiParams(params: seq<(string, Json)>): seq<(string, string)> {
    var kept := Seqs.Filter(params, (p: (string, Json)) => p.1 != JNull);
    seq(|kept|, i requires 0 <= i < |kept| => (kept[i].0, JsString(kept[i].1)))
  }

  /**
   * Exactly the non-null parameters are set, each to `String(v)`: a pair is in
   * the query string if and only if it comes from a non-null parameter.
   */
  lemma ApiParamsNonNull(params: seq<(string, Json)>)
    ensures forall p | p in params && p.1 != JNull :: (p.0, JsString(p.1)) in ApiParams(params)
    ensures forall kv | kv in ApiParams(params) :: exists p | p in params :: p.1 != JNull && kv == (p.0, JsString(p.1))
    ensures |ApiParams(params)| <= |params|
  {
    var f := (p: (string, Json)) => p.1 != JNull;
    var kept := Seqs.Filter(params, f);
    Seqs.FilterMembers(params, f);
    var r := ApiParams(params);
    forall p | p in params && p.1 != JNull ensures (p.0, JsString(p.1)) in r {
      assert p in kept;
      var i :| 0 <= i < |kept| && kept[i] == p;
      assert r[i] == (p.0, JsString(p.1));
    }
    forall kv | kv in r ensures exists p | p in params :: p.1 != JNull && kv == (p.0, JsString(p.1)) {
      var i :| 0 <= i < |r| && r[i] == kv;
      assert kept[i] in kept;
      Seqs.FilterElement(params, f, kept[i]);
    }
  }

  /** One `api` request: the path and the parameter object passed in. */
  datatype Call = Call(path: string, params: seq<(string, Json)>)

  /** The worker behind `api`: None where the status is not ok; a missing `results` reads as empty. */
  type Backend = Call -> Option<seq<ClaimRecord>>

  function NgCall(q: string): Call {
    Call("/api/ng-search", [("q", JStr(q))])
  }

  function SearchCall(q: string, lang: string): Call {
    Call("/api/search", [("q", JStr(q)), ("lang", JStr(lang))])
  }

  /** Both requests of the handler pass only strings, so both parameters are always set. */
  lemma CallParams(q: string, lang: string)
    ensures ApiParams(SearchCall(q, lang).params) == [("q", q), ("lang", lang)]
    ensures ApiParams(NgCall(q).params) == [("q", q)]
  {
    var f := (p: (string, Json)) => p.1 != JNull;
    var two := [("q", JStr(q)), ("lang", JStr(lang))];
    var one := [("q", JStr(q))];
    assert two[1..] == [("lang", JStr(lang))];
    assert [("lang", JStr(lang))][1..] == [];
    assert one[1..] == [];
    assert Seqs.Filter([("lang", JStr(lang))], f) == [("lang", JStr(lang))];
    assert Seqs.Filter(two, f) == two;
    assert Seqs.Filter(one, f) == one;
  }

  /** The five retries, each with `lang: "auto"`. */
  function Variants(q: string): seq<string> {
    ["\"" + q + "\"", q + " fact-check", q + " false", q + " misinformation", q + " verificaci\U{00F3}n"]
  }

  function VariantCalls(vs: seq<string>): (r: seq<Call>)
    ensures |r| == |vs|
    ensures forall k | 0 <= k < |vs| :: r[k] == SearchCall(vs[k], "auto")
  {
    seq(|vs|, k requires 0 <= k < |vs| => SearchCall(vs[k], "auto"))
  }

  datatype Outcome = Hit(results: seq<ClaimRecord>) | Miss | Threw

  datatype Trial = Trial(calls: seq<Call>, outcome: Outcome)

  /**
   * The `for (const v of variants)` loop, over the requests it makes: the first
   * non-empty answer wins; a failure escapes.
   */
  function TryCalls(backend: Backend, cs: seq<Call>): Trial
    decreases |cs|
  {
    if cs == [] then Trial([], Miss)
    else
      match backend(cs[0])
      case None => Trial([cs[0]], Threw)
      case Some(rs) =>
        if rs != [] then Trial([cs[0]], Hit(rs))
        else
          var t := TryCalls(backend, cs[1..]);
          Trial([cs[0]] + t.calls, t.outcome)
  }

  /**
   * The requests are made in order, one each, until the first non-empty
   * answer or the first failure; every request before the last answered with
   * no results, and a Miss means all of them were made and all did.
   */
  lemma {:induction false} TryCallsOrder(backend: Backend, cs: seq<Call>)
    ensures |TryCalls(backend, cs).calls| <= |cs|
    ensures TryCalls(backend, cs).calls == cs[..|TryCalls(backend, cs).calls|]
    ensures forall k | 0 <= k < |TryCalls(backend, cs).calls| - 1 :: backend(TryCalls(backend, cs).calls[k]) == Some([])
    ensures TryCalls(backend, cs).outcome == Miss ==>
      TryCalls(backend, cs).calls == cs && forall k | 0 <= k < |cs| :: backend(cs[k]) == Some([])
    ensures TryCalls(backend, cs).outcome.Hit? ==>
      var t := TryCalls(backend, cs);
      t.calls != [] && t.outcome.results != [] && backend(t.calls[|t.calls| - 1]) == Some(t.outcome.results)
    ensures TryCalls(backend, cs).outcome == Threw ==>
      var t := TryCalls(backend, cs);
      t.calls != [] && backend(t.calls[|t.calls| - 1]) == None
    decreases |cs|
  {
    if cs != [] {
      var c := cs[0];
      if backend(c) == Some([]) {
        TryCallsOrder(backend, cs[1..]);
        var t := TryCalls(backend, cs[1..]);
        var all := [c] + t.calls;
        assert TryCalls(backend, cs) == Trial(all, t.outcome);
        assert cs[1..][..|t.calls|] == cs[1..|t.calls| + 1];
        assert all == cs[..|all|];
        forall k | 0 <= k < |all| - 1 ensures backend(all[k]) == Some([]) {
          if k > 0 {
            assert all[k] == t.calls[k - 1];
          }
        }
        if t.outcome == Miss {
          assert [c] + cs[1..] == cs;
          forall k | 0 <= k < |cs| ensures backend(cs[k]) == Some([]) {
            if k > 0 {
              assert cs[k] == t.calls[k - 1];
            }
          }
        }
      } else {
        assert cs[..1] == [c];
      }
    }
  }

  /** What the page ends with: nothing (empty query), the error status, or a list of results. */
  datatype Display = Ignored | Failed | Shown(results: seq<ClaimRecord>)

  datatype Submission = Submission(calls: seq<Call>, display: Display)

  /** The submit handler. Any failing request aborts the whole chain into the `catch`. */
  function Submit(backend: Backend, input: string, lang: string, ngMode: bool): Submission {
    var query := Trim(input);
    if query == "" then Submission([], Ignored)
    else if ngMode then
      var c1 := NgCall(query);
      match backend(c1)
      case None => Submission([c1], Failed)
      case Some(data) =>
        if data != [] then Submission([c1], Shown(data))
        else
          var c2 := SearchCall(query, Or(lang, "auto"));
          match backend(c2)
          case None => Submission([c1, c2], Failed)
          case Some(g) => Submission([c1, c2], Shown(g))
    else
      var c1 := SearchCall(query, Or(lang, "auto"));
      match backend(c1)
      case None => Submission([c1], Failed)
      case Some(data) =>
        if data != [] then Submission([c1], Shown(data))
        else
          var t := TryCalls(backend, VariantCalls(Variants(query)));
          match t.outcome
          case Threw => Submission([c1] + t.calls, Failed)
          case Hit(g2) => Submission([c1] + t.calls, Shown(g2))
          case Miss =>
            var c3 := NgCall(query);
            match backend(c3)
            case None => Submission([c1] + t.calls + [c3], Failed)
            case Some(ng) => Submission([c1] + t.calls + [c3], Shown(if ng != [] then ng else data))
  }

  /** The handler as the page runs it: `data` reassigned, the variant loop left by `break`. */
  method SubmitSearch(backend: Backend, input: string, lang: string, ngMode: bool) returns (s: Submission)
    ensures s == Submit(backend, input, lang, ngMode)
  {
    var query := Trim(input);
    if query == "" {
      return Submission([], Ignored);
    }
    if ngMode {
      s := RegionalChain(backend, query, lang);
    } else {
      s := PrimaryChain(backend, query, lang);
    }
  }

  /** The `nigeriamode.checked` branch. */
  method RegionalChain(backend: Backend, query: string, lang: string) returns (s: Submission)
    requires query == Trim(query) && query != ""
    ensures s == Submit(backend, query, lang, true)
  {
    var c1 := NgCall(query);
    var data := backend(c1);
    if data.None? {
      return Submission([c1], Failed);
    }
    if |data.value| == 0 {
      var c2 := SearchCall(query, Or(lang, "auto"));
      var g := backend(c2);
      if g.None? {
        return Submission([c1, c2], Failed);
      }
      data := g;
      return Submission([c1, c2], Shown(data.value));
    }
    return Submission([c1], Shown(data.value));
  }

  /** The other branch: the first search, the five variants, then the regional endpoint. */
  method PrimaryChain(backend: Backend, query: string, lang: string) returns (s: Submission)
    requires query == Trim(query) && query != ""
    ensures s == Submit(backend, query, lang, false)
  {
    var c1 := SearchCall(query, Or(lang, "auto"));
    var first := backend(c1);
    if first.None? {
      return Submission([c1], Failed);
    }
    var data := first.value;
    if |data| > 0 {
      return Submission([c1], Shown(data));
    }
    var t := RunVariants(backend, VariantCalls(Variants(query)));
    if t.outcome == Threw {
      return Submission([c1] + t.calls, Failed);
    }
    if t.outcome.Hit? {
      data := t.outcome.results;
      return Submission([c1] + t.calls, Shown(data));
    }
    var c3 := NgCall(query);
    var ng := backend(c3);
    if ng.None? {
      return Submission([c1] + t.calls + [c3], Failed);
    }
    if |ng.value| > 0 {
      data := ng.value;
    }
    return Submission([c1] + t.calls + [c3], Shown(data));
  }

  /** The variant loop: `data = g2; break` on the first non-empty answer; a failure escapes. */
  method RunVariants(backend: Backend, cs: seq<Call>) returns (t: Trial)
    ensures t == TryCalls(backend, cs)
  {
    var calls: seq<Call> := [];
    for i := 0 to |cs|
      invariant var rest := TryCalls(backend, cs[i..]);
        TryCalls(backend, cs) == Trial(calls + rest.calls, rest.outcome)
    {
      var c := cs[i];
      assert cs[i..][0] == c && cs[i..][1..] == cs[i + 1..];
      var g2 := backend(c);
      if g2.None? {
        return Trial(calls + [c], Threw);
      }
      if |g2.value| > 0 {
        return Trial(calls + [c], Hit(g2.value));
      }
      ghost var rest := TryCalls(backend, cs[i + 1..]);
      assert calls + ([c] + rest.calls) == (calls + [c]) + rest.calls;
      calls := calls + [c];
    }
    assert cs[|cs|..] == [];
    assert calls + [] == calls;
    return Trial(calls, Miss);
  }

  /**
   * Nigeria mode: the regional request comes first; exactly one search
   * follows, and only when it gave nothing, and its answer is shown even if
   * empty.
   */
  lemma RegionalFirst(backend: Backend, query: string, lang: string)
    requires query == Trim(query) && query != ""
    ensures var s := Submit(backend, query, lang, true);
      1 <= |s.calls| <= 2 && s.calls[0] == NgCall(query) &&
      (|s.calls| == 2 <==> backend(NgCall(query)) == Some([])) &&
      (|s.calls| == 2 ==> (s.calls[1] == SearchCall(query, Or(lang, "auto")) &&
        (backend(s.calls[1]).Some? ==> s.display == Shown(backend(s.calls[1]).value))))
  {
  }

  /**
   * Otherwise: the variants are tried only when the first search gave
   * nothing, and the regional request is made only when every variant gave
   * nothing too; it replaces the (empty) results only when it found something.
   * What is shown is the answer to the last request made: the first search's
   * results when it found some, else the first non-empty variant's, else the
   * regional answer (which, when empty too, is the same empty list the first
   * search gave).
   */
  lemma PrimaryFallbacks(backend: Backend, query: string, lang: string)
    requires query == Trim(query) && query != ""
    ensures var s := Submit(backend, query, lang, false);
      var c1 := SearchCall(query, Or(lang, "auto"));
      s.calls[0] == c1 &&
      (|s.calls| > 1 ==> backend(c1) == Some([]) && s.calls[1] == SearchCall(Variants(query)[0], "auto")) &&
      (NgCall(query) in s.calls ==>
        s.calls == [c1] + VariantCalls(Variants(query)) + [NgCall(query)] &&
        forall k | 0 <= k < |s.calls| - 1 :: backend(s.calls[k]) == Some([]))
    ensures var s := Submit(backend, query, lang, false);
      var last := backend(s.calls[|s.calls| - 1]);
      (last.Some? ==> s.display == Shown(last.value)) &&
      (last.None? ==> s.display == Failed)
    ensures var s := Submit(backend, query, lang, false);
      var t := TryCalls(backend, VariantCalls(Variants(query)));
      backend(SearchCall(query, Or(lang, "auto"))) == Some([]) && t.outcome.Hit? ==>
        s.display == Shown(t.outcome.results) && t.outcome.results != []
  {
    var c1 := SearchCall(query, Or(lang, "auto"));
    var cs := VariantCalls(Variants(query));
    TryCallsOrder(backend, cs);
    var t := TryCalls(backend, cs);
    var s := Submit(backend, query, lang, false);
    if backend(c1) == Some([]) {
      if t.calls != [] {
        assert t.calls[0] == cs[0];
      }
      if t.outcome == Miss {
        forall k | 0 <= k < |s.calls| - 1 ensures backend(s.calls[k]) == Some([]) {
          if k > 0 {
            assert s.calls[k] == t.calls[k - 1];
          }
        }
      }
    } else if backend(c1).Some? && backend(c1).value == [] {
      assert false;
    }
  }

  /**
   * A failing request aborts everything: the error status is shown exactly
   * when the last request failed, and every earlier one succeeded.
   */
  lemma FailureAborts(backend: Backend, query: string, lang: string, ngMode: bool)
    requires query == Trim(query) && query != ""
    ensures var s := Submit(backend, query, lang, ngMode);
      s.calls != [] &&
      (s.display == Failed <==> backend(s.calls[|s.calls| - 1]).None?) &&
      forall k | 0 <= k < |s.calls| - 1 :: backend(s.calls[k]).Some?
  {
    if !ngMode {
      var c1 := SearchCall(query, Or(lang, "auto"));
      var cs := VariantCalls(Variants(query));
      TryCallsOrder(backend, cs);
      var t := TryCalls(backend, cs);
      var s := Submit(backend, query, lang, false);
      if backend(c1) == Some([]) {
        forall k | 0 <= k < |s.calls| - 1 ensures backend(s.calls[k]).Some? {
          if 0 < k <= |t.calls| {
            assert s.calls[k] == t.calls[k - 1];
          }
        }
        if t.outcome.Hit? || t.outcome == Threw {
          assert s.calls[|s.calls| - 1] == t.calls[|t.calls| - 1];
        }
      }
    }
  }

  /** `[${r.rating}]`, or `[Related]` without a rating. */
  function Tag(r: ClaimRecord): string {
    if r.rating != "" then "[" + r.rating + "]" else "[Related]"
  }

  /** `- ${tag} ${r.title || r.text}${pub}${link}` */
  function Line(r: ClaimRecord): (b: string)
    ensures Script.Dashed(b)
    ensures OccursAt(b, Tag(r) + " " + Or(r.title, r.text), 2)
    ensures r.reviewPublisher != "" ==> OccursAt(b, " \U{2014} " + r.reviewPublisher, 3 + |Tag(r)| + |Or(r.title, r.text)|)
    ensures r.reviewUrl != "" ==> EndsWith(b, "\n  " + r.reviewUrl)
    ensures r.reviewPublisher == "" && r.reviewUrl == "" ==> b == "- " + Tag(r) + " " + Or(r.title, r.text)
    ensures |b| == 3 + |Tag(r)| + |Or(r.title, r.text)| + |Script.Part(" \U{2014} ", r.reviewPublisher, "")| +
      |Script.Part("\n  ", r.reviewUrl, "")|
  {
    var mid := Tag(r) + " " + Or(r.title, r.text);
    var pub := Script.Part(" \U{2014} ", r.reviewPublisher, "");
    var link := Script.Part("\n  ", r.reviewUrl, "");
    var s1 := "- " + mid;
    var s2 := s1 + pub;
    OccursStart("- ", mid);
    OccursExtend(s1, pub, "- ", 0);
    OccursExtend(s2, link, "- ", 0);
    OccursMiddle("- ", mid, pub);
    OccursExtend(s2, link, mid, 2);
    OccursMiddle(s1, pub, link);
    EndsWithConcat(s2, link);
    s2 + link
  }

  /** The label `renderResults` shows: the rating in bold, or "Related Article" in italics. */
  function RatingLabel(r: ClaimRecord): string {
    if r.rating != "" then "<strong>" + r.rating + "</strong>" else "<em>Related Article</em>"
  }

  /**
   * The list and the script agree on what a record is: both show its rating
   * when it has one; the list says "Related Article" exactly when there is
   * none, and then the script says `[Related]`.
   */
  lemma LabelsAgree(r: ClaimRecord)
    ensures RatingLabel(r) == "<em>Related Article</em>" <==> r.rating == ""
    ensures r.rating == "" ==> Tag(r) == "[Related]"
    ensures r.rating != "" ==> OccursAt(RatingLabel(r), r.rating, 8) && OccursAt(Tag(r), r.rating, 1)
  {
    if r.rating != "" {
      assert RatingLabel(r)[1] == 's';
      assert "<em>Related Article</em>"[1] == 'e';
    }
  }

  const LineCap := 8

  function Hook(topic: string): string {
    "HOOK: " + topic + "? Let's verify with trusted sources."
  }

  const Note := "NOTE: Some items may be related context (no formal verdict). Always read full sources."

  /** The array `buildScript` joins: three fixed lines, the result lines, two fixed lines. */
  function ScriptLines(topic: string, rs: seq<ClaimRecord>): seq<string> {
    [Hook(topic), "", "FINDINGS:"] + Script.Bullets(rs, LineCap, Line) + ["", Note]
  }

  /**
   * Three fixed lines, the lines of the first eight results in order (the
   * contract of `Script.Bullets`), two fixed lines.
   */
  lemma ScriptLinesShape(topic: string, rs: seq<ClaimRecord>)
    ensures |ScriptLines(topic, rs)| == 5 + (if |rs| < LineCap then |rs| else LineCap)
    ensures ScriptLines(topic, rs)[..3] == [Hook(topic), "", "FINDINGS:"]
    ensures ScriptLines(topic, rs)[3..|ScriptLines(topic, rs)| - 2] == Script.Bullets(rs, LineCap, Line)
    ensures ScriptLines(topic, rs)[|ScriptLines(topic, rs)| - 2..] == ["", Note]
  {
    var h := [Hook(topic), "", "FINDINGS:"];
    var b := Script.Bullets(rs, LineCap, Line);
    var hb := h + b;
    var l := hb + ["", Note];
    assert l == ScriptLines(topic, rs);
    assert l[..3] == h;
    assert l[3..|l| - 2] == b;
    assert l[|l| - 2..] == ["", Note];
  }

  /** `buildScript(topic, data)` */
  function BuildScript(topic: string, rs: seq<ClaimRecord>): string {
    Join(ScriptLines(topic, rs), "\n")
  }

  /**
   * Joined: the HOOK line and the FINDINGS heading, the line of each of the
   * first eight results (none when there are no results), and the closing note.
   */
  lemma ScriptLayout(topic: string, rs: seq<ClaimRecord>)
    ensures var lines := Script.Bullets(rs, LineCap, Line);
      BuildScript(topic, rs) ==
        Hook(topic) + "\n\nFINDINGS:" + (if lines == [] then "" else "\n" + Join(lines, "\n")) + "\n\n" + Note
  {
    var lines := Script.Bullets(rs, LineCap, Line);
    var head := [Hook(topic), "", "FINDINGS:"];
    var tail := ["", Note];
    assert ScriptLines(topic, rs) == head + lines + tail;
    Script.JoinSplice(head, lines, tail, "\n");
    JoinHead(topic);
    JoinTail();
  }

  lemma JoinHead(topic: string)
    ensures Join([Hook(topic), "", "FINDINGS:"], "\n") == Hook(topic) + "\n\nFINDINGS:"
  {
    var head := [Hook(topic), "", "FINDINGS:"];
    assert head[1..] == ["", "FINDINGS:"];
    assert head[1..][1..] == ["FINDINGS:"];
    assert Join(head[1..], "\n") == "" + "\n" + "FINDINGS:";
    assert "" + "\n" + "FINDINGS:" == "\nFINDINGS:";
    assert Join(head, "\n") == Hook(topic) + "\n" + "\nFINDINGS:";
  }

  lemma JoinTail()
    ensures Join(["", Note], "\n") == "\n" + Note
  {
    assert ["", Note][1..] == [Note];
  }
}
