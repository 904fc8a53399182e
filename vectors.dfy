/** Arithmetic on 12-slot vectors shared by the template builder, the matcher and the tick
    (the sums of products in renderer/app.js cosineSimilarity and the `reduce` calls, and
    the `Math.max(...v)` spread). */
module Vectors {

  /** What the code relies on of `Math.sqrt`: the root of 0 is 0 and the root of a positive
      number is positive. Nothing else about square roots is assumed. */
  ghost predicate SqrtLike(sqrt: real -> real)
  {
    sqrt(0.0) == 0.0 && forall x: real :: 0.0 < x ==> 0.0 < sqrt(x)
  }

  lemma SqrtNonNegative(sqrt: real -> real, x: real)
    requires SqrtLike(sqrt) && 0.0 <= x
    ensures 0.0 <= sqrt(x)
  {
  }

  /** The sum of a[i] * b[i]. */
  function Dot(a: seq<real>, b: seq<real>): real
    requires |a| == |b|
  {
    if a == [] then 0.0 else a[0] * b[0] + Dot(a[1..], b[1..])
  }

  /** The sum of squares, `v.reduce((s, x) => s + x * x, 0)`. */
  function SumSq(a: seq<real>): real
  {
    Dot(a, a)
  }

  lemma {:induction false} DotSymmetric(a: seq<real>, b: seq<real>)
    requires |a| == |b|
    ensures Dot(a, b) == Dot(b, a)
  {
    if a != [] {
      DotSymmetric(a[1..], b[1..]);
    }
  }

  lemma {:induction false} DotOfZero(a: seq<real>, b: seq<real>)
    requires |a| == |b|
    requires forall i :: 0 <= i < |a| ==> a[i] == 0.0
    ensures Dot(a, b) == 0.0
  {
    if a != [] {
      DotOfZero(a[1..], b[1..]);
    }
  }

  lemma {:induction false} DotNonNegative(a: seq<real>, b: seq<real>)
    requires |a| == |b|
    requires forall i :: 0 <= i < |a| ==> 0.0 <= a[i] && 0.0 <= b[i]
    ensures 0.0 <= Dot(a, b)
  {
    if a != [] {
      DotNonNegative(a[1..], b[1..]);
      assert 0.0 <= a[0] * b[0];
    }
  }

  lemma {:induction false} SumSqNonNegative(a: seq<real>)
    ensures 0.0 <= SumSq(a)
  {
    if a != [] {
      SumSqNonNegative(a[1..]);
      assert 0.0 <= a[0] * a[0];
    }
  }

  /** One square never exceeds the whole sum. */
  lemma {:induction false} SumSqAtLeast(a: seq<real>, i: nat)
    requires i < |a|
    ensures a[i] * a[i] <= SumSq(a)
  {
    SumSqNonNegative(a[1..]);
    if i > 0 {
      SumSqAtLeast(a[1..], i - 1);
      assert 0.0 <= a[0] * a[0];
    }
  }

  /** `Math.max(...s)` on a non-empty sequence: an element that no element exceeds. */
  function MaxOf(s: seq<real>): (m: real)
    requires s != []
    ensures m in s
    ensures forall i :: 0 <= i < |s| ==> s[i] <= m
  {
    if |s| == 1 then s[0]
    else
      var rest := MaxOf(s[..|s| - 1]);
      assert s == s[..|s| - 1] + [s[|s| - 1]];
      if s[|s| - 1] > rest then s[|s| - 1] else rest
  }

  /** The sum of the elements. */
  function Total(s: seq<real>): real
  {
    if s == [] then 0.0 else Total(s[..|s| - 1]) + s[|s| - 1]
  }

  /** Summing is linear: the total of an elementwise sum is the sum of the totals. */
  lemma {:induction false} TotalAdd(a: seq<real>, b: seq<real>, c: seq<real>)
    requires |a| == |b| == |c|
    requires forall k :: 0 <= k < |c| ==> c[k] == a[k] + b[k]
    ensures Total(c) == Total(a) + Total(b)
  {
    if c != [] {
      var n := |c| - 1;
      TotalAdd(a[..n], b[..n], c[..n]);
    }
  }

  /** A vector that is `m` at one index and zero elsewhere sums to `m`; all zeros sum to 0. */
  lemma {:induction false} TotalOneHot(s: seq<real>, k: int, m: real)
    requires forall j :: 0 <= j < |s| && j != k ==> s[j] == 0.0
    requires 0 <= k < |s| ==> s[k] == m
    ensures Total(s) == if 0 <= k < |s| then m else 0.0
  {
    if s != [] {
      var n := |s| - 1;
      TotalOneHot(s[..n], k, m);
    }
  }
}
