/** Generic facts about sequences: order-preserving selection, distinct elements, and
    element-wise results. */
module Sequences {
  import opened Wrappers

  /** `a` can be obtained from `b` by deleting elements, keeping the order of the rest. */
  predicate IsSubsequence<T(==)>(a: seq<T>, b: seq<T>)
    decreases |b|
  {
    if |a| == 0 then true
    else if |b| == 0 then false
    else if a[0] == b[0] then IsSubsequence(a[1..], b[1..])
    else IsSubsequence(a, b[1..])
  }

  /** Every sequence is a subsequence of itself. */
  lemma {:induction false} SubsequenceReflexive<T>(a: seq<T>)
    ensures IsSubsequence(a, a)
    decreases |a|
  {
    if |a| > 0 {
      SubsequenceReflexive(a[1..]);
    }
  }

  /** The elements of `s` in order of first appearance, each once: the key order of a
      Python dictionary filled from `s`. */
  function Distinct<T(==)>(s: seq<T>): (r: seq<T>)
    ensures forall i, j :: 0 <= i < j < |r| ==> r[i] != r[j]
    ensures forall i :: 0 <= i < |s| ==> s[i] in r
    ensures forall i :: 0 <= i < |r| ==> r[i] in s
    decreases |s|
  {
    if |s| == 0 then []
    else
      var d := Distinct(s[..|s| - 1]);
      assert s == s[..|s| - 1] + [s[|s| - 1]];
      if s[|s| - 1] in d then d else d + [s[|s| - 1]]
  }

  /** Appending an element already seen leaves the first-appearance order unchanged;
      appending a new one adds it at the end. */
  lemma DistinctSnoc<T>(s: seq<T>, x: T)
    ensures Distinct(s + [x]) == if x in s then Distinct(s) else Distinct(s) + [x]
  {
    assert (s + [x])[..|s + [x]| - 1] == s;
  }

  /** Appending the same element to both sides, or only to the longer one, keeps a
      subsequence a subsequence. */
  lemma {:induction false} SubsequenceSnoc<T>(a: seq<T>, b: seq<T>, x: T)
    requires IsSubsequence(a, b)
    ensures IsSubsequence(a, b + [x]) && IsSubsequence(a + [x], b + [x])
    decreases |b|
  {
    if |b| == 0 {
      assert |a| == 0;
      assert (a + [x])[1..] == [];
      assert (b + [x])[1..] == [];
    } else {
      assert (b + [x])[1..] == b[1..] + [x];
      if |a| == 0 {
        SubsequenceSnoc(a, b[1..], x);
        assert a + [x] == [x];
      } else if a[0] == b[0] {
        SubsequenceSnoc(a[1..], b[1..], x);
        assert (a + [x])[1..] == a[1..] + [x];
      } else {
        SubsequenceSnoc(a, b[1..], x);
      }
    }
  }

  lemma AppendAssoc<T>(a: seq<T>, b: seq<T>, c: seq<T>)
    ensures (a + b) + c == a + (b + c)
  {
  }

  /** Appending the image of the last element to the images of the others gives the
      images of all. */
  lemma SnocMapped<A, B>(xs: seq<A>, f: A --> B, prev: seq<B>, y: B)
    requires |xs| > 0 && |prev| == |xs| - 1 && forall i :: 0 <= i < |xs| ==> f.requires(xs[i])
    requires forall i :: 0 <= i < |prev| ==> f.requires(xs[..|xs| - 1][i]) && prev[i] == f(xs[..|xs| - 1][i])
    requires f.requires(xs[|xs| - 1]) && y == f(xs[|xs| - 1])
    ensures forall i :: 0 <= i < |xs| ==> (prev + [y])[i] == f(xs[i])
  {
    forall i | 0 <= i < |xs|
      ensures (prev + [y])[i] == f(xs[i])
    {
      if i < |prev| {
        assert xs[..|xs| - 1][i] == xs[i];
      }
    }
  }

  /** Prepending the result for the first element to the results for the rest gives the
      results for all. */
  lemma ConsMapped<A, B>(xs: seq<A>, f: A --> Result<B, string>, y: B, ys: seq<B>)
    requires |xs| > 0 && forall i :: 0 <= i < |xs| ==> f.requires(xs[i])
    requires f(xs[0]) == Success(y) && |ys| == |xs| - 1
    requires forall i :: 0 <= i < |ys| ==> f(xs[1..][i]) == Success(ys[i])
    ensures forall i :: 0 <= i < |xs| ==> f(xs[i]) == Success(([y] + ys)[i])
  {
    forall i | 0 <= i < |xs|
      ensures f(xs[i]) == Success(([y] + ys)[i])
    {
      if i > 0 {
        assert xs[i] == xs[1..][i - 1];
      }
    }
  }

  /** An element after the first whose result fails is an element of the whole that fails. */
  lemma TailFailsMapped<A, B>(xs: seq<A>, f: A --> Result<B, string>)
    requires |xs| > 0 && forall i :: 0 <= i < |xs| ==> f.requires(xs[i])
    requires !forall i :: 0 <= i < |xs| - 1 ==> f(xs[1..][i]).Success?
    ensures !forall i :: 0 <= i < |xs| ==> f(xs[i]).Success?
  {
    var j :| 0 <= j < |xs| - 1 && !f(xs[1..][j]).Success?;
    assert xs[1..][j] == xs[j + 1];
  }
}
