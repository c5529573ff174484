/**
 * The pieces every revision of `buildScript` is made of: optional parts that
 * appear only for a non-empty field, the first `cap` results mapped to bullet
 * lines, and the line array joined with newlines.
 */
module Script {
  import opened Js
  import opened Claims
  import Seqs

  /** `value ? `${open}${value}${close}` : ""` */
  function Part(open: string, value: string, close: string): (r: string)
    ensures r == "" <==> value == ""
    ensures value != "" ==> r == open + value + close
  {
    if value != "" then open + value + close else ""
  }

  /**
   * `- ${label}${rating}${pub}${link}`, the bullet of docs/docs/app.js,
   * docs/docs/app_backup_2.js, docs/docs/app_backup.js and docs/app_backup.js
   * (they differ only in the name shown): the name after the dash, then the
   * optional ` (rating)`, ` — publisher` and a `Source:` line, and nothing
   * else: each optional part takes up room only when its field is non-empty.
   */
  function SourceBullet(name: string, r: ClaimRecord): (b: string)
    ensures Dashed(b)
    ensures OccursAt(b, name, 2)
    ensures r.rating != "" ==> OccursAt(b, " (" + r.rating + ")", 2 + |name|)
    ensures r.reviewPublisher != "" ==>
      OccursAt(b, " \U{2014} " + r.reviewPublisher, 2 + |name| + |Part(" (", r.rating, ")")|)
    ensures r.reviewUrl != "" ==> EndsWith(b, "\nSource: " + r.reviewUrl)
    ensures r.rating == "" && r.reviewPublisher == "" && r.reviewUrl == "" ==> b == "- " + name
    ensures |b| == 2 + |name| + |Part(" (", r.rating, ")")| + |Part(" \U{2014} ", r.reviewPublisher, "")| +
      |Part("\nSource: ", r.reviewUrl, "")|
  {
    var rating := Part(" (", r.rating, ")");
    var pub := Part(" \U{2014} ", r.reviewPublisher, "");
    var link := Part("\nSource: ", r.reviewUrl, "");
    var s1 := "- " + name;
    var s2 := s1 + rating;
    var s3 := s2 + pub;
    OccursStart("- ", name);
    OccursExtend(s1, rating, "- ", 0);
    OccursExtend(s2, pub, "- ", 0);
    OccursExtend(s3, link, "- ", 0);
    OccursMiddle("- ", name, rating);
    OccursExtend(s2, pub, name, 2);
    OccursExtend(s3, link, name, 2);
    OccursMiddle(s1, rating, pub);
    OccursExtend(s3, link, rating, |s1|);
    OccursMiddle(s2, pub, link);
    EndsWithConcat(s3, link);
    s3 + link
  }

  /** `results.slice(0, cap).map(line)`: the first `cap` results, in order. */
  function Bullets(rs: seq<ClaimRecord>, cap: nat, line: ClaimRecord -> string): (r: seq<string>)
    ensures |r| == if |rs| < cap then |rs| else cap
    ensures forall k | 0 <= k < |r| :: r[k] == line(rs[k])
  {
    var t := Seqs.Take(rs, cap);
    seq(|t|, k requires 0 <= k < |t| => line(t[k]))
  }

  /** A bullet line starts with "- " and so is never empty. */
  predicate Dashed(b: string) {
    |b| >= 2 && b[..2] == "- "
  }

  /**
   * The joined bullets are empty exactly when there are no results (given a
   * positive cap and bullets that are never empty).
   */
  lemma BulletsEmpty(rs: seq<ClaimRecord>, cap: nat, line: ClaimRecord -> string)
    requires cap > 0
    requires forall r :: Dashed(line(r))
    ensures Join(Bullets(rs, cap, line), "\n") == "" <==> rs == []
  {
    var bs := Bullets(rs, cap, line);
    forall k | 0 <= k < |bs| ensures bs[k] != "" {
      assert Dashed(line(rs[k]));
    }
    JoinEmpty(bs, "\n");
  }

  /**
   * The line array of a script is fixed lines, the findings, fixed lines:
   * joined, the findings sit between the two fixed blocks.
   */
  lemma JoinAround(a: seq<string>, x: string, b: seq<string>)
    requires a != [] && b != []
    ensures Join(a + [x] + b, "\n") == Join(a, "\n") + "\n" + x + "\n" + Join(b, "\n")
  {
    JoinAppend(a, [x] + b, "\n");
    assert a + [x] + b == a + ([x] + b);
    JoinAppend([x], b, "\n");
  }

  /**
   * Fixed lines, a possibly empty run of variable lines, fixed lines: one
   * separator before each variable line.
   */
  lemma JoinSplice(a: seq<string>, m: seq<string>, b: seq<string>, sep: string)
    requires a != [] && b != []
    ensures Join(a + m + b, sep) == Join(a, sep) + (if m == [] then "" else sep + Join(m, sep)) + sep + Join(b, sep)
  {
    if m == [] {
      assert a + m + b == a + b;
      JoinAppend(a, b, sep);
    } else {
      JoinAppend(a, m, sep);
      JoinAppend(a + m, b, sep);
    }
  }

  /** A joined array starts with its first line. */
  lemma JoinStartsWith(parts: seq<string>, sep: string)
    requires parts != []
    ensures |parts[0]| <= |Join(parts, sep)| && Join(parts, sep)[..|parts[0]|] == parts[0]
  {
    if |parts| > 1 {
      assert Join(parts, sep) == parts[0] + (sep + Join(parts[1..], sep));
    }
  }
}
