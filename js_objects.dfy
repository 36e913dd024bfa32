/**
 * String-keyed JSON objects as JavaScript holds them: a list of own
 * properties in insertion order. Object spread `{...a, ...b}` defines the
 * properties of `b`, one after the other, over a copy of `a`: a key `a`
 * already has keeps its position and takes `b`'s value, a new key is
 * appended. The integer-like-key ordering rule of JavaScript objects is not
 * modelled.
 */
module JsObjects {
  import opened Wrappers

  /** An object's own properties, in insertion order. */
  type Assoc<V> = seq<(string, V)>

  /** The property names of `m`, in order. */
  function Keys<V>(m: Assoc<V>): (ks: seq<string>)
    ensures |ks| == |m| && forall i :: 0 <= i < |m| ==> ks[i] == m[i].0
  {
    if m == [] then [] else [m[0].0] + Keys(m[1..])
  }

  /** No name occurs twice in `ks` (what `JSON.parse` guarantees of an object). */
  predicate Distinct(ks: seq<string>) {
    ks == [] || (ks[0] !in ks[1..] && Distinct(ks[1..]))
  }

  /** `m[k]`: the value of the first property named `k`, if any. */
  function Lookup<V>(m: Assoc<V>, k: string): (r: Option<V>)
    ensures r.Some? <==> k in Keys(m)
  {
    if m == [] then None
    else if m[0].0 == k then Some(m[0].1)
    else Lookup(m[1..], k)
  }

  /**
   * Defines property `k` with value `v`, as JavaScript's CreateDataProperty
   * does: an existing property keeps its position, a new one goes last.
   */
  function Put<V>(m: Assoc<V>, k: string, v: V): (r: Assoc<V>)
    ensures Keys(r) == if k in Keys(m) then Keys(m) else Keys(m) + [k]
    ensures forall j :: Lookup(r, j) == if j == k then Some(v) else Lookup(m, j)
  {
    if m == [] then [(k, v)]
    else if m[0].0 == k then [(k, v)] + m[1..]
    else
      var rest := Put(m[1..], k, v);
      assert ([m[0]] + rest)[1..] == rest;
      [m[0]] + rest
  }

  /** `{...a, ...b}`: the properties of `b`, in order, defined over `a`. */
  function Spread<V>(a: Assoc<V>, b: Assoc<V>): (r: Assoc<V>)
    ensures |a| <= |r| <= |a| + |b|
    decreases |b|
  {
    if b == [] then a else Spread(Put(a, b[0].0, b[0].1), b[1..])
  }

  /** The names of `ks` that are not in `seen`, in the order of `ks`. */
  function NewKeys(ks: seq<string>, seen: seq<string>): seq<string> {
    if ks == [] then []
    else (if ks[0] in seen then [] else [ks[0]]) + NewKeys(ks[1..], seen)
  }

  lemma {:induction false} DistinctSnoc(ks: seq<string>, k: string)
    requires Distinct(ks) && k !in ks
    ensures Distinct(ks + [k])
  {
    if ks != [] {
      assert (ks + [k])[1..] == ks[1..] + [k];
      DistinctSnoc(ks[1..], k);
    }
  }

  lemma {:induction false} NewKeysSkip(ks: seq<string>, seen: seq<string>, x: string)
    requires x !in ks
    ensures NewKeys(ks, seen + [x]) == NewKeys(ks, seen)
  {
    if ks != [] {
      NewKeysSkip(ks[1..], seen, x);
    }
  }

  /** In an object without repeated names, property `m[i]` is what `m[k]` finds. */
  lemma {:induction false} LookupDistinct<V>(m: Assoc<V>, i: nat)
    requires Distinct(Keys(m)) && i < |m|
    ensures Lookup(m, m[i].0) == Some(m[i].1)
  {
    if i > 0 {
      assert Keys(m)[1..] == Keys(m[1..]);
      LookupDistinct(m[1..], i - 1);
    }
  }

  /** On a spread, the spread-in object wins: `{...a, ...b}[k]` is `b[k]` when `b` has `k`, else `a[k]`. */
  lemma {:induction false} SpreadLookup<V>(a: Assoc<V>, b: Assoc<V>, k: string)
    requires Distinct(Keys(b))
    ensures Lookup(Spread(a, b), k) == if k in Keys(b) then Lookup(b, k) else Lookup(a, k)
    decreases |b|
  {
    if b != [] {
      assert Keys(b) == [b[0].0] + Keys(b[1..]);
      SpreadLookup(Put(a, b[0].0, b[0].1), b[1..], k);
    }
  }

  /** Key order of a spread: the keys of `a` in their order, then those of `b` that `a` lacks, in `b`'s order. */
  lemma {:induction false} SpreadKeys<V>(a: Assoc<V>, b: Assoc<V>)
    requires Distinct(Keys(b))
    ensures Keys(Spread(a, b)) == Keys(a) + NewKeys(Keys(b), Keys(a))
    decreases |b|
  {
    if b != [] {
      var k, rest := b[0].0, b[1..];
      var a' := Put(a, k, b[0].1);
      assert Keys(b) == [k] + Keys(rest);
      assert Spread(a, b) == Spread(a', rest);
      SpreadKeys(a', rest);
      assert NewKeys(Keys(b), Keys(a)) == (if k in Keys(a) then [] else [k]) + NewKeys(Keys(rest), Keys(a));
      if k !in Keys(a) {
        NewKeysSkip(Keys(rest), Keys(a), k);
        assert Keys(a') == Keys(a) + [k];
      }
    }
  }

  /** A spread onto an object without repeated names has none either. */
  lemma {:induction false} SpreadDistinct<V>(a: Assoc<V>, b: Assoc<V>)
    requires Distinct(Keys(a))
    ensures Distinct(Keys(Spread(a, b)))
    decreases |b|
  {
    if b != [] {
      if b[0].0 !in Keys(a) {
        DistinctSnoc(Keys(a), b[0].0);
      }
      SpreadDistinct(Put(a, b[0].0, b[0].1), b[1..]);
    }
  }

  /** Defining a property with the value it already has changes nothing, position included. */
  lemma {:induction false} PutSame<V>(m: Assoc<V>, k: string, v: V)
    requires Lookup(m, k) == Some(v)
    ensures Put(m, k, v) == m
  {
    if m != [] && m[0].0 != k {
      PutSame(m[1..], k, v);
    }
  }

  /** Spreading `b` onto an object that already holds every property of `b` changes nothing. */
  lemma {:induction false} SpreadAbsorbed<V>(m: Assoc<V>, b: Assoc<V>)
    requires forall i :: 0 <= i < |b| ==> Lookup(m, b[i].0) == Some(b[i].1)
    ensures Spread(m, b) == m
    decreases |b|
  {
    if b != [] {
      PutSame(m, b[0].0, b[0].1);
      assert forall i :: 0 <= i < |b[1..]| ==> b[1..][i] == b[i + 1];
      SpreadAbsorbed(m, b[1..]);
    }
  }

  /** Spreading the same object twice is spreading it once. */
  lemma SpreadTwice<V>(a: Assoc<V>, b: Assoc<V>)
    requires Distinct(Keys(b))
    ensures Spread(Spread(a, b), b) == Spread(a, b)
  {
    forall i | 0 <= i < |b|
      ensures Lookup(Spread(a, b), b[i].0) == Some(b[i].1)
    {
      assert Keys(b)[i] == b[i].0;
      SpreadLookup(a, b, b[i].0);
      LookupDistinct(b, i);
    }
    SpreadAbsorbed(Spread(a, b), b);
  }
}
