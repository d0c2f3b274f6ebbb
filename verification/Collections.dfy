/** Sequence helpers shared by every component. */
module Seqs {

  datatype Option<+T> = None | Some(value: T)

  ghost predicate Distinct<T>(s: seq<T>) {
    forall i, j :: 0 <= i < j < |s| ==> s[i] != s[j]
  }

  function ToSet<T>(s: seq<T>): set<T> {
    set x | x in s
  }

  /** The elements satisfying `keep`, in order (Array.prototype.filter). */
  function Filter<T>(s: seq<T>, keep: T -> bool): (r: seq<T>)
    ensures |r| <= |s|
  {
    if s == [] then []
    else
      var front := Filter(s[..|s|-1], keep);
      if keep(s[|s|-1]) then front + [s[|s|-1]] else front
  }

  lemma {:induction false} FilterMember<T>(s: seq<T>, keep: T -> bool)
    ensures forall x :: x in Filter(s, keep) <==> x in s && keep(x)
  {
    if s != [] {
      FilterMember(s[..|s|-1], keep);
      assert s == s[..|s|-1] + [s[|s|-1]];
    }
  }

  lemma {:induction false} FilterAppend<T>(a: seq<T>, b: seq<T>, keep: T -> bool)
    ensures Filter(a + b, keep) == Filter(a, keep) + Filter(b, keep)
  {
    if b == [] {
      assert a + b == a;
    } else {
      var n := |b| - 1;
      assert (a + b)[..|a+b|-1] == a + b[..n];
      assert (a + b)[|a+b|-1] == b[n];
      FilterAppend(a, b[..n], keep);
    }
  }

  lemma {:induction false} FilterDistinct<T>(s: seq<T>, keep: T -> bool)
    requires Distinct(s)
    ensures Distinct(Filter(s, keep))
  {
    if s != [] {
      FilterDistinct(s[..|s|-1], keep);
      FilterMember(s[..|s|-1], keep);
    }
  }

  lemma {:induction false} FilterCongruent<T>(s: seq<T>, f: T -> bool, g: T -> bool)
    requires forall x :: x in s ==> f(x) == g(x)
    ensures Filter(s, f) == Filter(s, g)
  {
    if s != [] {
      FilterCongruent(s[..|s|-1], f, g);
    }
  }

  lemma {:induction false} FilterTwice<T>(s: seq<T>, f: T -> bool, g: T -> bool)
    ensures Filter(Filter(s, f), g) == Filter(s, x => f(x) && g(x))
  {
    if s != [] {
      var n := |s| - 1;
      FilterTwice(s[..n], f, g);
      if f(s[n]) {
        FilterAppend(Filter(s[..n], f), [s[n]], g);
        assert [s[n]][..0] == [];
      }
    }
  }

  lemma {:induction false} FilterAll<T>(s: seq<T>, keep: T -> bool)
    requires forall x :: x in s ==> keep(x)
    ensures Filter(s, keep) == s
  {
    if s != [] {
      FilterAll(s[..|s|-1], keep);
    }
  }

  /** The cardinality of a repeat-free sequence is that of its element set. */
  lemma {:induction false} DistinctCardinality<T>(s: seq<T>)
    requires Distinct(s)
    ensures |ToSet(s)| == |s|
  {
    if s != [] {
      var n := |s| - 1;
      DistinctCardinality(s[..n]);
      assert ToSet(s) == ToSet(s[..n]) + {s[n]};
    }
  }

  lemma SubsetCardinality<T>(a: set<T>, b: set<T>)
    requires a <= b
    ensures |a| <= |b|
    ensures |a| == |b| ==> a == b
  {
    assert b == a + (b - a);
    assert |b| == |a| + |b - a|;
  }

  /** Pigeonhole: too long a sequence over `s` repeats an element. */
  lemma Pigeonhole<T>(p: seq<T>, s: set<T>)
    requires forall x :: x in p ==> x in s
    requires |p| > |s|
    ensures exists i, j :: 0 <= i < j < |p| && p[i] == p[j]
  {
    if Distinct(p) {
      DistinctCardinality(p);
      SubsetCardinality(ToSet(p), s);
      assert false;
    }
  }

  lemma DistinctWithin<T>(p: seq<T>, q: seq<T>)
    requires Distinct(p) && Distinct(q)
    requires forall x :: x in p ==> x in q
    ensures |p| <= |q|
    ensures |p| == |q| ==> ToSet(p) == ToSet(q)
  {
    DistinctCardinality(p);
    DistinctCardinality(q);
    SubsetCardinality(ToSet(p), ToSet(q));
  }

  /** The sequence without any occurrence of `x`. */
  function RemoveAll<T(==)>(s: seq<T>, x: T): (r: seq<T>)
    ensures |r| <= |s|
  {
    if s == [] then []
    else
      var front := RemoveAll(s[..|s|-1], x);
      if s[|s|-1] == x then front else front + [s[|s|-1]]
  }

  lemma {:induction false} RemoveAllSpec<T>(s: seq<T>, x: T)
    ensures forall y :: y in RemoveAll(s, x) <==> y in s && y != x
    ensures x !in s ==> RemoveAll(s, x) == s
  {
    if s != [] {
      var n := |s| - 1;
      RemoveAllSpec(s[..n], x);
      assert s == s[..n] + [s[n]];
    }
  }

  lemma {:induction false} RemoveAllDistinct<T>(s: seq<T>, x: T)
    requires Distinct(s)
    ensures Distinct(RemoveAll(s, x))
  {
    if s != [] {
      var n := |s| - 1;
      RemoveAllDistinct(s[..n], x);
      RemoveAllSpec(s[..n], x);
      var front := RemoveAll(s[..n], x);
      forall i | 0 <= i < |front| ensures front[i] != s[n] { assert front[i] in front; }
    }
  }

  function Index<T(==)>(s: seq<T>, x: T): (i: nat)
    requires x in s
    ensures i < |s| && s[i] == x
    ensures forall j :: 0 <= j < i ==> s[j] != x
  {
    if s[0] == x then 0 else 1 + Index(s[1..], x)
  }
}

/**
 * The insertion-ordered Map of JavaScript as a value: `keys` is the iteration
 * order, `vals` the contents. Setting an existing key keeps its position,
 * setting a new one appends, deleting forgets the position.
 */
module JsMaps {
  import opened Seqs

  datatype JsMap<!K(==), V> = JsMap(keys: seq<K>, vals: map<K, V>)
  {
    ghost predicate Valid() {
      && Distinct(keys)
      && (forall k :: k in keys ==> k in vals)
      && (forall k :: k in vals ==> k in keys)
    }

    predicate Has(k: K) {
      k in vals
    }

    function Get(k: K): V
      requires Has(k)
    {
      vals[k]
    }

    function Set(k: K, v: V): (r: JsMap<K, V>)
      ensures Valid() ==> r.Valid()
    {
      JsMap(if k in vals then keys else keys + [k], vals[k := v])
    }

    function Delete(k: K): (r: JsMap<K, V>)
      ensures Valid() ==> r.Valid()
    {
      RemoveAllSpec(keys, k);
      assert Valid() ==> Distinct(RemoveAll(keys, k)) by {
        if Valid() { RemoveAllDistinct(keys, k); }
      }
      JsMap(RemoveAll(keys, k), vals - {k})
    }
  }

  function Empty<K, V>(): (r: JsMap<K, V>)
    ensures r.Valid()
  {
    JsMap([], map[])
  }

  /** A map over the same keys in the same order. */
  function MapValues<K, V, W>(m: JsMap<K, V>, f: V -> W): (r: JsMap<K, W>)
    ensures m.Valid() ==> r.Valid()
    ensures r.keys == m.keys && r.vals.Keys == m.vals.Keys
    ensures forall k :: k in m.vals ==> r.vals[k] == f(m.vals[k])
  {
    JsMap(m.keys, map k | k in m.vals :: f(m.vals[k]))
  }
}
