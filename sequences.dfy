/** Sequence facts shared by the views: distinctness, `Array.prototype.indexOf`,
    `filter` of one value, and what a reordering by a permutation preserves. */
module Sequences {

  /** No value occurs twice. */
  predicate Distinct<T(==)>(s: seq<T>) {
    forall i, j :: 0 <= i < j < |s| ==> s[i] != s[j]
  }

  /** `s.indexOf(v)`: the first position holding `v`, or -1 when there is none. */
  function IndexOf<T(==)>(s: seq<T>, v: T): (k: int)
    ensures -1 <= k < |s|
    ensures k == -1 <==> v !in s
    ensures 0 <= k ==> s[k] == v && forall j :: 0 <= j < k ==> s[j] != v
  {
    if |s| == 0 then -1
    else if s[0] == v then 0
    else
      var k := IndexOf(s[1..], v);
      if k == -1 then -1 else k + 1
  }

  /** In a sequence without repetitions, `indexOf` inverts indexing. */
  lemma IndexOfDistinct<T>(s: seq<T>, j: nat)
    requires Distinct(s) && j < |s|
    ensures IndexOf(s, s[j]) == j
  {
    assert s[j] in s;
  }

  /** `s.filter(y => y !== x)`. */
  function Without<T(==,!new)>(s: seq<T>, x: T): (r: seq<T>)
    ensures forall y :: y in r <==> y in s && y != x
  {
    if |s| == 0 then []
    else if s[0] == x then Without(s[1..], x)
    else [s[0]] + Without(s[1..], x)
  }

  /** Filtering one value out of a sequence without repetitions removes exactly
      one element when the value is there, and keeps it without repetitions. */
  lemma {:induction false} WithoutDistinct<T(!new)>(s: seq<T>, x: T)
    requires Distinct(s)
    ensures Distinct(Without(s, x))
    ensures x in s ==> |Without(s, x)| == |s| - 1
    ensures x !in s ==> Without(s, x) == s
  {
    if |s| > 0 {
      assert Distinct(s[1..]);
      WithoutDistinct(s[1..], x);
      assert s[0] !in s[1..];
      if s[0] != x {
        assert s[0] !in Without(s[1..], x);
        assert s == [s[0]] + s[1..];
      }
    }
  }

  /** `p` lists each of the positions 0..n-1 once: the order a `sort` with
      any comparator leaves an n-element array in. */
  predicate IsPermutation(p: seq<nat>, n: nat) {
    && |p| == n
    && (forall i :: 0 <= i < |p| ==> p[i] < n)
    && (forall i, j :: 0 <= i < j < |p| ==> p[i] != p[j])
  }

  /** The elements of `s` at the positions `p`, in that order. */
  function Pick<T>(s: seq<T>, p: seq<nat>): (r: seq<T>)
    requires forall i :: 0 <= i < |p| ==> p[i] < |s|
    ensures |r| == |p|
    ensures forall i :: 0 <= i < |p| ==> r[i] == s[p[i]]
  {
    if p == [] then [] else [s[p[0]]] + Pick(s, p[1..])
  }

  /** Picking distinct positions of a sequence without repetitions gives a
      sequence without repetitions. */
  lemma PickDistinct<T>(s: seq<T>, p: seq<nat>)
    requires IsPermutation(p, |s|) && Distinct(s)
    ensures Distinct(Pick(s, p))
  {
    var r := Pick(s, p);
    forall i, j | 0 <= i < j < |r|
      ensures r[i] != r[j]
    {
      assert r[i] == s[p[i]] && r[j] == s[p[j]] && p[i] != p[j];
    }
  }

  /** Picking adds no element that was not there. */
  lemma PickFrom<T>(s: seq<T>, p: seq<nat>)
    requires forall i :: 0 <= i < |p| ==> p[i] < |s|
    ensures forall a :: a in Pick(s, p) ==> a in s
  {
    var r := Pick(s, p);
    forall a | a in r
      ensures a in s
    {
      var k :| 0 <= k < |r| && r[k] == a;
      assert a == s[p[k]];
    }
  }

  /** A permutation of 0..n-1 lists every position below n (the pigeonhole
      principle). */
  lemma {:induction false} PermutationOnto(p: seq<nat>, v: nat)
    requires IsPermutation(p, |p|) && v < |p|
    ensures v in p
    decreases |p|
  {
    var n := |p|;
    var last := p[n - 1];
    if last != v {
      // Close the gap: the position that held n - 1 takes `last` instead.
      var q := seq(n - 1, i requires 0 <= i < n - 1 => if p[i] == n - 1 then last else p[i]);
      assert IsPermutation(q, n - 1) by {
        forall i, j | 0 <= i < j < n - 1
          ensures q[i] != q[j]
        {
          assert p[i] != p[j] && p[i] != last && p[j] != last;
        }
      }
      if v == n - 1 {
        if v !in p {
          assert q == p[..n - 1];
          // Then `last` would occur twice in p.
          PermutationOnto(q, last);
        }
      } else {
        PermutationOnto(q, v);
        var k :| 0 <= k < n - 1 && q[k] == v;
        assert p[k] == v;
      }
    }
  }

  /** Picking all positions in some order keeps every element. */
  lemma PickKeepsAll<T>(s: seq<T>, p: seq<nat>, j: nat)
    requires IsPermutation(p, |s|) && j < |s|
    ensures s[j] in Pick(s, p)
  {
    PermutationOnto(p, j);
    var k :| 0 <= k < |p| && p[k] == j;
    assert Pick(s, p)[k] == s[j];
  }
}
