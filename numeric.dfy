/**
  The arithmetic the services do over score lists (numpy mean / max / min and
  a counted fraction), on exact reals.
*/
module Numeric {

  function Sum(s: seq<real>): real
  {
    if s == [] then 0.0 else Sum(s[..|s| - 1]) + s[|s| - 1]
  }

  /** `np.mean`, with 0.0 for an empty list as the services default it. */
  function Mean(s: seq<real>): real
  {
    if s == [] then 0.0 else Sum(s) / |s| as real
  }

  function Max(s: seq<real>): (m: real)
    requires s != []
    ensures m in s
    ensures forall i :: 0 <= i < |s| ==> s[i] <= m
  {
    if |s| == 1 then s[0]
    else var m := Max(s[..|s| - 1]); if s[|s| - 1] > m then s[|s| - 1] else m
  }

  function Min(s: seq<real>): (m: real)
    requires s != []
    ensures m in s
    ensures forall i :: 0 <= i < |s| ==> m <= s[i]
  {
    if |s| == 1 then s[0]
    else var m := Min(s[..|s| - 1]); if s[|s| - 1] < m then s[|s| - 1] else m
  }

  /** How many elements are at least `bound`. */
  function CountAtLeast(s: seq<real>, bound: real): (n: nat)
    ensures n <= |s|
  {
    if s == [] then 0
    else CountAtLeast(s[..|s| - 1], bound) + (if s[|s| - 1] >= bound then 1 else 0)
  }

  /** Counting one more element adds one to a count of positions when the element matches. */
  lemma CountStep(before: set<int>, after: set<int>, n: int, matches: bool)
    requires forall i :: i in before ==> i < n
    requires forall i :: i in after <==> i in before || (matches && i == n)
    ensures |after| == |before| + (if matches then 1 else 0)
  {
    if matches {
      forall i
        ensures i in after <==> i in before + {n}
      {
      }
      assert after == before + {n};
      assert n !in before;
    } else {
      forall i
        ensures i in after <==> i in before
      {
      }
      assert after == before;
    }
  }

  /** The count is the number of positions whose element is at least `bound`. */
  lemma {:induction false} CountAtLeastSpec(s: seq<real>, bound: real)
    ensures CountAtLeast(s, bound) == |set i | 0 <= i < |s| && s[i] >= bound|
  {
    if s != [] {
      var n := |s| - 1;
      var init := s[..n];
      CountAtLeastSpec(init, bound);
      var before := set i | 0 <= i < |init| && init[i] >= bound;
      var after := set i | 0 <= i < |s| && s[i] >= bound;
      CountStep(before, after, n, s[n] >= bound);
    }
  }

  lemma {:induction false} SumBounds(s: seq<real>, lo: real, hi: real)
    requires forall i :: 0 <= i < |s| ==> lo <= s[i] <= hi
    ensures |s| as real * lo <= Sum(s) <= |s| as real * hi
  {
    if s != [] {
      SumBounds(s[..|s| - 1], lo, hi);
    }
  }

  /** The mean of a non-empty list lies between its minimum and its maximum. */
  lemma MeanBetweenMinAndMax(s: seq<real>)
    requires s != []
    ensures Min(s) <= Mean(s) <= Max(s)
  {
    MeanWithin(s, Min(s), Max(s));
  }

  lemma DivideBounds(x: real, n: real, lo: real, hi: real)
    requires n > 0.0
    requires n * lo <= x <= n * hi
    ensures lo <= x / n <= hi
  {
    assert x / n * n == x;
  }

  /** The mean of values in [lo, hi] lies in [lo, hi]. */
  lemma MeanWithin(s: seq<real>, lo: real, hi: real)
    requires s != []
    requires forall i :: 0 <= i < |s| ==> lo <= s[i] <= hi
    ensures lo <= Mean(s) <= hi
  {
    SumBounds(s, lo, hi);
    DivideBounds(Sum(s), |s| as real, lo, hi);
  }

  /** A counted fraction lies in [0, 1]. */
  lemma FractionWithinUnit(k: nat, n: nat)
    requires k <= n && n > 0
    ensures 0.0 <= k as real / n as real <= 1.0
  {
    DivideBounds(k as real, n as real, 0.0, 1.0);
  }
}
