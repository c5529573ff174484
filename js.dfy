/**
 * The fragment of JavaScript's value semantics that the fact-check core relies on:
 * parsed JSON values, truthiness, `a || b`, property access with `?.`, `for...of`,
 * `String(x)`, `trim`, `toLowerCase` (ASCII), `includes` and `join`.
 */
module Js {

  datatype Option<+T> = None | Some(value: T) {
    /** `x ?? d` */
    function GetOr(d: T): T {
      if Some? then value else d
    }
  }

  /**
   * A value as `JSON.parse` returns it. Numbers are integers in this model;
   * JSON has no `undefined`, which `Get` renders as None.
   */
  datatype Json =
    | JNull
    | JBool(b: bool)
    | JNum(n: int)
    | JStr(s: string)
    | JArr(items: seq<Json>)
    | JObj(fields: map<string, Json>)

  /** JavaScript truthiness (NaN cannot come out of `JSON.parse`). */
  predicate Truthy(j: Json) {
    match j
    case JNull => false
    case JBool(b) => b
    case JNum(n) => n != 0
    case JStr(s) => s != ""
    case JArr(_) => true
    case JObj(_) => true
  }

  /**
   * `j[k]` for a property name that is neither an array index nor `length`
   * (all names the core reads are of this kind): only objects carry one.
   */
  function Get(j: Json, k: string): (r: Option<Json>)
    ensures r.Some? <==> j.JObj? && k in j.fields
  {
    if j.JObj? && k in j.fields then Some(j.fields[k]) else None
  }

  /**
   * `j?.[k]` with undefined read as null: the core only inspects such a value
   * with `||`, `?.`, `===` and `Array.isArray`, which treat the two alike.
   */
  function Prop(j: Json, k: string): Json {
    Get(j, k).GetOr(JNull)
  }

  /** `a || b` on JSON values. */
  function OrJ(a: Json, b: Json): (r: Json)
    ensures Truthy(a) ==> r == a
    ensures !Truthy(a) ==> r == b
  {
    if Truthy(a) then a else b
  }

  /** `a || b` on strings: `a` unless it is empty. */
  function Or(a: string, b: string): (r: string)
    ensures a != "" ==> r == a
    ensures a == "" ==> r == b
    ensures r == "" <==> a == "" && b == ""
  {
    if a != "" then a else b
  }

  /**
   * The string a record field receives from a JSON value in a `x || ""`
   * position: a string is kept, every other value counts as absent.
   */
  function Str(j: Json): string {
    if j.JStr? then j.s else ""
  }

  /**
   * `for (const x of j)`: an array yields its items, a string its characters
   * (one-character strings); every other value throws a TypeError (None).
   */
  function Iterate(j: Json): (r: Option<seq<Json>>)
    ensures r.Some? <==> j.JArr? || j.JStr?
    ensures j.JArr? ==> r == Some(j.items)
    ensures j.JStr? ==> |r.value| == |j.s| && forall i | 0 <= i < |j.s| :: r.value[i] == JStr([j.s[i]])
  {
    match j
    case JArr(xs) => Some(xs)
    case JStr(s) => Some(seq(|s|, i requires 0 <= i < |s| => JStr([s[i]])))
    case _ => None
  }

  /**
   * A loop or `map` over `xs` whose step `f` may throw (None): None as soon as
   * one step throws, else the results in order.
   */
  function MapAll<T, U>(xs: seq<T>, f: T -> Option<U>): (r: Option<seq<U>>)
    ensures r.Some? <==> forall i | 0 <= i < |xs| :: f(xs[i]).Some?
    ensures r.Some? ==> |r.value| == |xs| && forall i | 0 <= i < |xs| :: Some(r.value[i]) == f(xs[i])
    decreases |xs|
  {
    if xs == [] then Some([])
    else
      var init := xs[..|xs| - 1];
      match MapAll(init, f)
      case None =>
        assert exists i | 0 <= i < |init| :: f(init[i]).None?;
        var j :| 0 <= j < |init| && f(init[j]).None?;
        assert init[j] == xs[j];
        None
      case Some(rs) =>
        match f(xs[|xs| - 1])
        case None => None
        case Some(x) => Some(rs + [x])
  }

  /** One more iteration of a loop that computes `MapAll(xs[..i], f)`. */
  lemma MapAllStep<T, U>(xs: seq<T>, i: nat, f: T -> Option<U>, rs: seq<U>)
    requires i < |xs| && MapAll(xs[..i], f) == Some(rs)
    ensures MapAll(xs[..i + 1], f) == if f(xs[i]).Some? then Some(rs + [f(xs[i]).value]) else None
  {
    assert xs[..i + 1][..i] == xs[..i];
  }

  /** `j[0]`: undefined (null here) where there is no element 0. */
  function Index0(j: Json): Json {
    match j
    case JArr(xs) => if |xs| > 0 then xs[0] else JNull
    case JStr(s) => if |s| > 0 then JStr([s[0]]) else JNull
    case JObj(m) => if "0" in m then m["0"] else JNull
    case _ => JNull
  }

  /** The WhiteSpace and LineTerminator characters of ECMAScript. */
  const SpaceChars: set<char> := {
    '\t', '\n', '\U{000B}', '\U{000C}', '\r', ' ', '\U{00A0}', '\U{1680}',
    '\U{2000}', '\U{2001}', '\U{2002}', '\U{2003}', '\U{2004}', '\U{2005}',
    '\U{2006}', '\U{2007}', '\U{2008}', '\U{2009}', '\U{200A}',
    '\U{2028}', '\U{2029}', '\U{202F}', '\U{205F}', '\U{3000}', '\U{FEFF}'}

  predicate IsSpace(c: char) {
    c in SpaceChars
  }

  /** The characters `.` does not match in a regular expression. */
  predicate IsLineTerminator(c: char) {
    c == '\n' || c == '\r' || c == '\U{2028}' || c == '\U{2029}'
  }

  /** The index of the first non-whitespace character at or after `k` (or `|s|`). */
  function SkipSpaces(s: string, k: nat): (n: nat)
    requires k <= |s|
    ensures k <= n <= |s|
    ensures forall i | k <= i < n :: IsSpace(s[i])
    ensures n == |s| || !IsSpace(s[n])
    decreases |s| - k
  {
    if k < |s| && IsSpace(s[k]) then SkipSpaces(s, k + 1) else k
  }

  /** The index just past the last non-whitespace character before `k` (or 0). */
  function BackSpaces(s: string, k: nat): (n: nat)
    requires k <= |s|
    ensures n <= k
    ensures forall i | n <= i < k :: IsSpace(s[i])
    ensures n == 0 || !IsSpace(s[n - 1])
    decreases k
  {
    if k > 0 && IsSpace(s[k - 1]) then BackSpaces(s, k - 1) else k
  }

  /** `s.trim()`: the input without its leading and trailing whitespace. */
  function Trim(s: string): (r: string)
    ensures r == [] || (!IsSpace(r[0]) && !IsSpace(r[|r| - 1]))
    ensures |r| <= |s|
    ensures s == [] || (!IsSpace(s[0]) && !IsSpace(s[|s| - 1])) ==> r == s
    ensures exists a, b | 0 <= a <= b <= |s| ::
      r == s[a..b] && (forall i | 0 <= i < a :: IsSpace(s[i])) && (forall i | b <= i < |s| :: IsSpace(s[i]))
  {
    var a := SkipSpaces(s, 0);
    var b := BackSpaces(s, |s|);
    if a < b then s[a..b] else
      assert forall i | b <= i < |s| :: IsSpace(s[i]);
      assert s[a..a] == [];
      []
  }

  /** ASCII `toLowerCase` of one character. */
  function LowerChar(c: char): char {
    if 'A' <= c <= 'Z' then (c as int + 32) as char else c
  }

  /** `s.toLowerCase()`, on the ASCII letters. */
  function Lower(s: string): (r: string)
    ensures |r| == |s|
    ensures forall i | 0 <= i < |s| :: r[i] == LowerChar(s[i])
  {
    seq(|s|, i requires 0 <= i < |s| => LowerChar(s[i]))
  }

  /** `needle` occurs in `hay` starting at index `i`. */
  predicate OccursAt(hay: string, needle: string, i: nat) {
    i + |needle| <= |hay| && hay[i..i + |needle|] == needle
  }

  /** `s.endsWith(t)` */
  predicate EndsWith(s: string, t: string) {
    |t| <= |s| && s[|s| - |t|..] == t
  }

  lemma OccursStart(a: string, b: string)
    ensures OccursAt(a + b, a, 0)
  {
    assert (a + b)[0..|a|] == a;
  }

  lemma OccursMiddle(a: string, b: string, c: string)
    ensures OccursAt(a + b + c, b, |a|)
  {
    assert (a + b + c)[|a|..|a| + |b|] == b;
  }

  lemma OccursExtend(s: string, t: string, needle: string, i: nat)
    requires OccursAt(s, needle, i)
    ensures OccursAt(s + t, needle, i)
  {
    assert (s + t)[i..i + |needle|] == s[i..i + |needle|];
  }

  lemma EndsWithConcat(s: string, t: string)
    ensures EndsWith(s + t, t)
  {
    assert (s + t)[|s|..] == t;
  }

  /** `hay.includes(needle)`: `needle` occurs in `hay` as a contiguous piece. */
  predicate Contains(hay: string, needle: string) {
    exists i: nat | i <= |hay| :: OccursAt(hay, needle, i)
  }

  /** `parts.join(sep)`. */
  function Join(parts: seq<string>, sep: string): string {
    if |parts| == 0 then ""
    else if |parts| == 1 then parts[0]
    else parts[0] + sep + Join(parts[1..], sep)
  }

  /** One step of `join`: the part at `k`, the separator, then the rest. */
  lemma JoinStep(parts: seq<string>, sep: string, k: nat)
    requires k + 1 < |parts|
    ensures Join(parts[k..], sep) == parts[k] + sep + Join(parts[k + 1..], sep)
  {
    assert parts[k..][1..] == parts[k + 1..];
  }

  /** Joining two non-empty lists puts one separator between their joins. */
  lemma {:induction false} JoinAppend(a: seq<string>, b: seq<string>, sep: string)
    requires a != [] && b != []
    ensures Join(a + b, sep) == Join(a, sep) + sep + Join(b, sep)
    decreases |a|
  {
    assert (a + b)[1..] == a[1..] + b;
    if |a| > 1 {
      JoinAppend(a[1..], b, sep);
    }
  }

  /** A join of non-empty parts is empty exactly when there are no parts. */
  lemma JoinEmpty(parts: seq<string>, sep: string)
    requires forall k | 0 <= k < |parts| :: parts[k] != ""
    ensures Join(parts, sep) == "" <==> parts == []
  {
    if |parts| > 1 {
      assert |Join(parts, sep)| >= |parts[0]|;
    }
  }

  /** Decimal digits of a natural number, as `String(n)` prints them. */
  function NatToString(n: nat): (r: string)
    ensures |r| > 0
    ensures forall i | 0 <= i < |r| :: '0' <= r[i] <= '9'
  {
    var d := ['0', '1', '2', '3', '4', '5', '6', '7', '8', '9'];
    if n < 10 then [d[n]] else NatToString(n / 10) + [d[n % 10]]
  }

  /** `String(j)` for a JSON value. */
  function JsString(j: Json): string
    decreases j
  {
    match j
    case JNull => "null"
    case JBool(b) => if b then "true" else "false"
    case JNum(n) => if n < 0 then "-" + NatToString(-n) else NatToString(n)
    case JStr(s) => s
    case JArr(xs) =>
      // Array.prototype.toString joins with "," and prints null as ""
      Join(seq(|xs|, i requires 0 <= i < |xs| => if xs[i] == JNull then "" else JsString(xs[i])), ",")
    case JObj(_) => "[object Object]"
  }
}
