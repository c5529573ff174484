/**
 * Sequence operations shared by every revision: "keep the first element per key"
 * (the `seen`-Set filters and the insertion-ordered `Set`s of the source),
 * `filter`, and `slice(0, n)`.
 */
module Seqs {

  /** The keys of the elements of `s`. */
  function KeySet<T(==), K(==)>(s: seq<T>, key: T -> K): set<K> {
    set x | x in s :: key(x)
  }

  /** No two elements of `s` share a key. */
  predicate KeysUnique<T, K(==)>(s: seq<T>, key: T -> K) {
    forall i, j | 0 <= i < j < |s| :: key(s[i]) != key(s[j])
  }

  /**
   * Keep the first element for each key, in input order: what
   * `arr.filter(r => { if (seen.has(k(r))) return false; seen.add(k(r)); return true; })`
   * computes, and what `[...new Set(xs)]` is when the key is the identity.
   */
  function DedupBy<T(==), K(==)>(s: seq<T>, key: T -> K): seq<T>
    decreases |s|
  {
    if s == [] then []
    else
      var d := DedupBy(s[..|s| - 1], key);
      if key(s[|s| - 1]) in KeySet(d, key) then d else d + [s[|s| - 1]]
  }

  function Identity<T>(x: T): T {
    x
  }

  /** The distinct elements of `s` in first-seen order (a JavaScript `Set` filled from `s`). */
  function Distinct<T(==)>(s: seq<T>): seq<T> {
    DedupBy(s, Identity)
  }

  /** `s.slice(0, n)`. */
  function Take<T>(s: seq<T>, n: nat): (r: seq<T>)
    ensures |r| <= n && |r| <= |s|
    ensures |r| == n || r == s
    ensures r == s[..|r|]
  {
    if |s| <= n then s else s[..n]
  }

  /** `s.filter(p)`. */
  function Filter<T>(s: seq<T>, p: T -> bool): seq<T> {
    if s == [] then [] else (if p(s[0]) then [s[0]] else []) + Filter(s[1..], p)
  }

  /** `f` applied to every element of `s`, the results concatenated in order. */
  function FlatMap<T, U>(s: seq<T>, f: T -> seq<U>): seq<U>
    decreases |s|
  {
    if s == [] then [] else FlatMap(s[..|s| - 1], f) + f(s[|s| - 1])
  }

  /** `x` is a prefix of `y`. */
  predicate IsPrefix<T(==)>(x: seq<T>, y: seq<T>) {
    |x| <= |y| && y[..|x|] == x
  }

  lemma {:induction false} DedupByKeys<T, K>(s: seq<T>, key: T -> K)
    ensures KeySet(DedupBy(s, key), key) == KeySet(s, key)
    decreases |s|
  {
    if s != [] {
      var init := s[..|s| - 1];
      DedupByKeys(init, key);
      assert s == init + [s[|s| - 1]];
      assert KeySet(s, key) == KeySet(init, key) + {key(s[|s| - 1])};
      var d := DedupBy(init, key);
      assert KeySet(d + [s[|s| - 1]], key) == KeySet(d, key) + {key(s[|s| - 1])};
    }
  }

  /** Deduplication leaves no repeated key. */
  lemma {:induction false} DedupByUnique<T, K>(s: seq<T>, key: T -> K)
    ensures KeysUnique(DedupBy(s, key), key)
    decreases |s|
  {
    if s != [] {
      var init := s[..|s| - 1];
      DedupByUnique(init, key);
      var d := DedupBy(init, key);
      var x := s[|s| - 1];
      if key(x) !in KeySet(d, key) {
        forall i, j | 0 <= i < j < |d + [x]| ensures key((d + [x])[i]) != key((d + [x])[j]) {
          if j == |d| {
            assert d[i] in d;
          }
        }
      }
    }
  }

  /** Every element the deduplication keeps comes from its input. */
  lemma {:induction false} DedupByFrom<T, K>(s: seq<T>, key: T -> K)
    ensures forall x | x in DedupBy(s, key) :: x in s
    ensures |DedupBy(s, key)| <= |s|
    decreases |s|
  {
    if s != [] {
      var init := s[..|s| - 1];
      DedupByFrom(init, key);
      assert s == init + [s[|s| - 1]];
    }
  }

  /** Deduplicating a longer input never drops or reorders what a shorter one kept. */
  lemma {:induction false} DedupByPrefix<T, K>(a: seq<T>, b: seq<T>, key: T -> K)
    ensures IsPrefix(DedupBy(a, key), DedupBy(a + b, key))
    decreases |b|
  {
    if b == [] {
      assert a + b == a;
    } else {
      var b' := b[..|b| - 1];
      DedupByPrefix(a, b', key);
      assert (a + b)[..|a + b| - 1] == a + b';
    }
  }

  /** An input without repeated keys is left as it is. */
  lemma {:induction false} DedupByIdentical<T, K>(s: seq<T>, key: T -> K)
    requires KeysUnique(s, key)
    ensures DedupBy(s, key) == s
    decreases |s|
  {
    if s != [] {
      var init := s[..|s| - 1];
      assert KeysUnique(init, key);
      DedupByIdentical(init, key);
      var x := s[|s| - 1];
      forall y | y in init ensures key(y) != key(x) {
        var i :| 0 <= i < |init| && init[i] == y;
        assert s[i] == y;
      }
      assert s == init + [x];
    }
  }

  /** Elements whose keys were all seen already add nothing. */
  lemma {:induction false} DedupBySubsumed<T, K>(a: seq<T>, b: seq<T>, key: T -> K)
    requires KeySet(b, key) <= KeySet(a, key)
    ensures DedupBy(a + b, key) == DedupBy(a, key)
    decreases |b|
  {
    if b == [] {
      assert a + b == a;
    } else {
      var b' := b[..|b| - 1];
      assert b == b' + [b[|b| - 1]];
      assert KeySet(b', key) <= KeySet(b, key);
      DedupBySubsumed(a, b', key);
      assert (a + b)[..|a + b| - 1] == a + b';
      DedupByKeys(a, key);
      assert b[|b| - 1] in b;
    }
  }

  /** The first element with a given key is the one kept. */
  lemma {:induction false} DedupByKeepsFirst<T, K>(s: seq<T>, key: T -> K, i: nat)
    requires i < |s|
    requires forall j | 0 <= j < i :: key(s[j]) != key(s[i])
    ensures s[i] in DedupBy(s, key)
    decreases |s|
  {
    var init := s[..|s| - 1];
    DedupByKeys(init, key);
    if i < |s| - 1 {
      DedupByKeepsFirst(init, key, i);
    }
  }

  /** Appending an element with a fresh key keeps it; one with a seen key adds nothing. */
  lemma KeySetSnoc<T, K>(s: seq<T>, x: T, key: T -> K)
    ensures KeySet(s + [x], key) == KeySet(s, key) + {key(x)}
  {
    assert forall y | y in s + [x] :: y in s || y == x;
  }

  lemma DedupBySnoc<T, K>(s: seq<T>, x: T, key: T -> K)
    ensures key(x) in KeySet(s, key) ==> DedupBy(s + [x], key) == DedupBy(s, key)
    ensures key(x) !in KeySet(s, key) ==> DedupBy(s + [x], key) == DedupBy(s, key) + [x]
  {
    assert (s + [x])[..|s + [x]| - 1] == s;
    DedupByKeys(s, key);
  }

  lemma {:induction false} FilterMembers<T>(s: seq<T>, p: T -> bool)
    ensures forall x :: x in Filter(s, p) <==> x in s && p(x)
    ensures |Filter(s, p)| <= |s|
  {
    if s != [] {
      FilterMembers(s[1..], p);
      assert s == [s[0]] + s[1..];
    }
  }

  /** A survivor of the filter is an element of its input. */
  lemma FilterElement<T>(s: seq<T>, p: T -> bool, y: T)
    requires y in Filter(s, p)
    ensures y in s && p(y)
  {
    FilterMembers(s, p);
  }

  /** Filtering preserves order: it distributes over concatenation. */
  lemma {:induction false} FilterAppend<T>(a: seq<T>, b: seq<T>, p: T -> bool)
    ensures Filter(a + b, p) == Filter(a, p) + Filter(b, p)
  {
    if a == [] {
      assert a + b == b;
    } else {
      var ab := a + b;
      var h := if p(a[0]) then [a[0]] else [];
      assert ab[0] == a[0] && ab != [];
      assert ab[1..] == a[1..] + b;
      assert Filter(ab, p) == h + Filter(a[1..] + b, p);
      FilterAppend(a[1..], b, p);
      var x, y := Filter(a[1..], p), Filter(b, p);
      assert Filter(a, p) == h + x;
      assert h + (x + y) == (h + x) + y;
    }
  }

  lemma FlatMapSnoc<T, U>(s: seq<T>, x: T, f: T -> seq<U>)
    ensures FlatMap(s + [x], f) == FlatMap(s, f) + f(x)
  {
    assert (s + [x])[..|s + [x]| - 1] == s;
  }

  /** One more iteration of a loop that accumulates `FlatMap(s[..i], f)`. */
  lemma FlatMapStep<T, U>(s: seq<T>, i: nat, f: T -> seq<U>)
    requires i < |s|
    ensures FlatMap(s[..i + 1], f) == FlatMap(s[..i], f) + f(s[i])
  {
    assert s[..i + 1][..i] == s[..i];
  }

  /** `FlatMap` distributes over concatenation. */
  lemma {:induction false} FlatMapAppend<T, U>(a: seq<T>, b: seq<T>, f: T -> seq<U>)
    ensures FlatMap(a + b, f) == FlatMap(a, f) + FlatMap(b, f)
    decreases |b|
  {
    if b == [] {
      assert a + b == a;
    } else {
      var b' := b[..|b| - 1];
      var x := b[|b| - 1];
      assert b == b' + [x];
      assert a + b == (a + b') + [x];
      FlatMapAppend(a, b', f);
      FlatMapSnoc(a + b', x, f);
      FlatMapSnoc(b', x, f);
      var u, v, w := FlatMap(a, f), FlatMap(b', f), f(x);
      assert (u + v) + w == u + (v + w);
    }
  }


  /** An element that contributes nothing leaves the rest of the concatenation as it is. */
  lemma FlatMapSkip<T, U>(a: seq<T>, x: T, b: seq<T>, f: T -> seq<U>)
    requires f(x) == []
    ensures FlatMap(a + [x] + b, f) == FlatMap(a, f) + FlatMap(b, f)
  {
    FlatMapSnoc(a, x, f);
    FlatMapAppend(a + [x], b, f);
  }

  lemma DistinctMembers<T>(s: seq<T>)
    ensures forall x :: x in Distinct(s) <==> x in s
  {
    DedupByKeys(s, Identity);
    DedupByFrom(s, Identity);
    forall x | x in s ensures x in Distinct(s) {
      assert Identity(x) in KeySet(s, Identity);
    }
  }

  lemma DistinctMember<T>(s: seq<T>, x: T)
    ensures x in Distinct(s) <==> x in s
  {
    DistinctMembers(s);
  }

  /** Adding to a `Set`: a new element goes to the end, a present one changes nothing. */
  lemma DistinctSnoc<T>(s: seq<T>, x: T)
    ensures Distinct(s + [x]) == if x in s then Distinct(s) else Distinct(s) + [x]
  {
    DedupBySnoc(s, x, Identity);
    assert x in s <==> Identity(x) in KeySet(s, Identity);
  }

  /**
   * `[...set].slice(0, n)` for a `Set` filled from `s`: at most `n` distinct
   * elements of `s`, the first ones in first-seen order, all of them when
   * there are no more than `n`.
   */
  lemma TakeDistinct<T>(s: seq<T>, n: nat)
    ensures var r := Take(Distinct(s), n);
      |r| <= n &&
      (forall i, j | 0 <= i < j < |r| :: r[i] != r[j]) &&
      (forall x | x in r :: x in s) &&
      IsPrefix(r, Distinct(s)) &&
      (|Distinct(s)| <= n ==> r == Distinct(s))
  {
    var d := Distinct(s);
    DedupByUnique(s, Identity);
    DistinctMembers(s);
    var r := Take(d, n);
    forall i, j | 0 <= i < j < |r| ensures r[i] != r[j] {
      assert r[i] == d[i] && r[j] == d[j];
      assert Identity(d[i]) != Identity(d[j]);
    }
    forall x | x in r ensures x in s {
      assert x in d;
    }
  }

  /** Filtering preserves distinct keys. */
  lemma {:induction false} FilterKeysUnique<T, K>(s: seq<T>, p: T -> bool, key: T -> K)
    requires KeysUnique(s, key)
    ensures KeysUnique(Filter(s, p), key)
  {
    if s != [] {
      var rest := s[1..];
      assert KeysUnique(rest, key);
      FilterKeysUnique(rest, p, key);
      FilterMembers(rest, p);
      if p(s[0]) {
        var f := Filter(s, p);
        var t := Filter(rest, p);
        assert f == [s[0]] + t;
        forall i, j | 0 <= i < j < |f| ensures key(f[i]) != key(f[j]) {
          if i == 0 {
            var y := f[j];
            assert y == t[j - 1];
            assert y in t;
            FilterElement(rest, p, y);
            var k :| 0 <= k < |rest| && rest[k] == y;
            assert s[k + 1] == y;
          } else {
            assert f[i] == t[i - 1] && f[j] == t[j - 1];
          }
        }
      }
    }
  }

  /** Filling a JavaScript `Set` from `s` one `add` at a time, read back in insertion order. */
  method InsertAll<T(==)>(s: seq<T>) returns (out: seq<T>)
    ensures out == Distinct(s)
  {
    out := [];
    for i := 0 to |s|
      invariant out == Distinct(s[..i])
    {
      assert s[..i + 1] == s[..i] + [s[i]];
      DistinctSnoc(s[..i], s[i]);
      DistinctMembers(s[..i]);
      if s[i] !in out {
        out := out + [s[i]];
      }
    }
    assert s[..|s|] == s;
  }

  /** The generic "keep the first per key" loop with its `seen` set. */
  method KeepFirst<T(==), K(==)>(s: seq<T>, key: T -> K) returns (out: seq<T>)
    ensures out == DedupBy(s, key)
  {
    var seen: set<K> := {};
    out := [];
    for i := 0 to |s|
      invariant out == DedupBy(s[..i], key)
      invariant seen == KeySet(out, key)
    {
      var k := key(s[i]);
      assert s[..i + 1] == s[..i] + [s[i]];
      DedupBySnoc(s[..i], s[i], key);
      DedupByKeys(s[..i], key);
      if k !in seen {
        KeySetSnoc(out, s[i], key);
        seen := seen + {k};
        out := out + [s[i]];
      }
    }
    assert s[..|s|] == s;
  }
}
