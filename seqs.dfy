/** Sequence helpers: first occurrence, de-duplication and an order-keeping filter. */
module Seqs {

  ghost predicate Distinct<T>(s: seq<T>) {
    forall i, j :: 0 <= i < j < |s| ==> s[i] != s[j]
  }

  /** Position of the first occurrence of `k` in `ks`. */
  function FirstIndex<K(==, !new)>(ks: seq<K>, k: K): (i: nat)
    requires k in ks
    ensures i < |ks| && ks[i] == k && k !in ks[..i]
  {
    if ks[0] == k then 0
    else
      var j := FirstIndex(ks[1..], k);
      assert ks[1..][..j] == ks[1..j + 1];
      j + 1
  }

  /** The distinct elements of `s`, in the order of their first occurrence. */
  function Dedup<K(==, !new)>(s: seq<K>): (d: seq<K>)
    ensures forall k :: k in d <==> k in s
    decreases |s|
  {
    if s == [] then []
    else
      var d := Dedup(s[..|s| - 1]);
      if s[|s| - 1] in d then d else d + [s[|s| - 1]]
  }

  lemma FirstIndexUnique<K(!new)>(ks: seq<K>, k: K, i: nat)
    requires i < |ks| && ks[i] == k && k !in ks[..i]
    ensures FirstIndex(ks, k) == i
  {
  }

  lemma FirstIndexExtend<K(!new)>(p: seq<K>, x: K, k: K)
    requires k in p
    ensures k in p + [x] && FirstIndex(p + [x], k) == FirstIndex(p, k)
  {
    var i := FirstIndex(p, k);
    assert (p + [x])[..i] == p[..i];
    FirstIndexUnique(p + [x], k, i);
  }

  /** `Dedup` lists each element once, ordered by first occurrence. */
  lemma {:induction false} DedupOrdered<K(!new)>(s: seq<K>)
    ensures forall i, j :: 0 <= i < j < |Dedup(s)| ==> FirstIndex(s, Dedup(s)[i]) < FirstIndex(s, Dedup(s)[j])
    decreases |s|
  {
    if s != [] {
      var p, x := s[..|s| - 1], s[|s| - 1];
      assert s == p + [x];
      DedupOrdered(p);
      var d0 := Dedup(p);
      forall k | k in d0 ensures FirstIndex(s, k) == FirstIndex(p, k) < |p| {
        FirstIndexExtend(p, x, k);
      }
      var d := if x in d0 then d0 else d0 + [x];
      assert Dedup(s) == d;
      if x !in d0 {
        assert s[..|p|] == p;
        FirstIndexUnique(s, x, |p|);
      }
      forall i, j | 0 <= i < j < |d| ensures FirstIndex(s, d[i]) < FirstIndex(s, d[j]) {
        assert d[i] == d0[i] && d0[i] in d0;
        assert FirstIndex(s, d0[i]) == FirstIndex(p, d0[i]) < |p|;
        if j < |d0| {
          assert d[j] == d0[j] && d0[j] in d0;
          assert FirstIndex(s, d0[j]) == FirstIndex(p, d0[j]);
          assert FirstIndex(p, d0[i]) < FirstIndex(p, d0[j]);
        } else {
          assert d[j] == x;
        }
      }
    }
  }

  /** The elements of `s` that satisfy `p`, in their order in `s`: a Java loop
      that appends every matching element to a fresh list. */
  function Filter<T(!new)>(s: seq<T>, p: T -> bool): (r: seq<T>)
    ensures |r| <= |s|
    ensures forall x :: x in r <==> x in s && p(x)
    decreases |s|
  {
    if s == [] then []
    else Filter(s[..|s| - 1], p) + (if p(s[|s| - 1]) then [s[|s| - 1]] else [])
  }

  /** Filtering a prefix gives a prefix of the filtered whole. */
  lemma {:induction false} FilterPrefix<T(!new)>(s: seq<T>, k: nat, p: T -> bool)
    requires k <= |s|
    ensures Filter(s[..k], p) <= Filter(s, p)
    decreases |s| - k
  {
    if k < |s| {
      FilterPrefix(s, k + 1, p);
      assert s[..k + 1][..k] == s[..k];
    } else {
      assert s[..k] == s;
    }
  }

  /** Filtering keeps order and, on distinct input, yields distinct output. */
  lemma {:induction false} FilterOrdered<T(!new)>(s: seq<T>, p: T -> bool)
    requires Distinct(s)
    ensures Distinct(Filter(s, p))
    ensures forall i, j :: 0 <= i < j < |Filter(s, p)| ==>
      FirstIndex(s, Filter(s, p)[i]) < FirstIndex(s, Filter(s, p)[j])
    decreases |s|
  {
    if s != [] {
      var q, x := s[..|s| - 1], s[|s| - 1];
      assert s == q + [x];
      FilterOrdered(q, p);
      var r0 := Filter(q, p);
      var r := Filter(s, p);
      assert r == r0 + (if p(x) then [x] else []);
      assert x !in q;
      forall k | k in q ensures FirstIndex(s, k) == FirstIndex(q, k) < |q| {
        FirstIndexExtend(q, x, k);
      }
      if p(x) {
        assert s[..|q|] == q;
        FirstIndexUnique(s, x, |q|);
      }
      forall i, j | 0 <= i < j < |r| ensures r[i] != r[j] && FirstIndex(s, r[i]) < FirstIndex(s, r[j]) {
        assert r[i] == r0[i] && r0[i] in q;
        assert FirstIndex(s, r0[i]) == FirstIndex(q, r0[i]) < |q|;
        if j < |r0| {
          assert r[j] == r0[j] && r0[j] in q;
          assert FirstIndex(s, r0[j]) == FirstIndex(q, r0[j]);
          assert FirstIndex(q, r0[i]) < FirstIndex(q, r0[j]);
        } else {
          assert r[j] == x;
        }
      }
    }
  }
}
