/**
  The order in which a flat inner-product index returns its entries: by
  descending similarity, equal similarities by lower position. `TopK` is the
  candidate list a k-nearest search yields, before any filtering.
*/
module Ranking {

  /** Position a comes before position b in the index's result order. */
  predicate Precedes(sims: seq<real>, a: nat, b: nat)
    requires a < |sims| && b < |sims|
  {
    sims[a] > sims[b] || (sims[a] == sims[b] && a < b)
  }

  predicate InRange(sims: seq<real>, l: seq<nat>)
  {
    forall i :: 0 <= i < |l| ==> l[i] < |sims|
  }

  /** l lists positions of sims in result order. */
  predicate Ordered(sims: seq<real>, l: seq<nat>)
  {
    && InRange(sims, l)
    && forall i, j :: 0 <= i < j < |l| ==> Precedes(sims, l[i], l[j])
  }

  function Insert(sims: seq<real>, l: seq<nat>, p: nat): (r: seq<nat>)
    requires p < |sims| && InRange(sims, l)
    ensures |r| == |l| + 1 && InRange(sims, r)
    ensures forall x :: x in r <==> x in l || x == p
  {
    if l == [] then [p]
    else if Precedes(sims, p, l[0]) then [p] + l
    else [l[0]] + Insert(sims, l[1..], p)
  }

  lemma {:induction false} InsertKeepsOrder(sims: seq<real>, l: seq<nat>, p: nat)
    requires p < |sims| && Ordered(sims, l) && p !in l
    ensures Ordered(sims, Insert(sims, l, p))
  {
    if l != [] && !Precedes(sims, p, l[0]) {
      assert Ordered(sims, l[1..]);
      InsertKeepsOrder(sims, l[1..], p);
      var rest := Insert(sims, l[1..], p);
      var r := [l[0]] + rest;
      assert Precedes(sims, l[0], p);
      forall j | 0 < j < |r|
        ensures Precedes(sims, r[0], r[j])
      {
        assert r[j] in rest;
        if r[j] != p {
          var k :| 0 <= k < |l[1..]| && l[1..][k] == r[j];
          assert l[k + 1] == r[j];
        }
      }
    }
  }

  /** Positions 0 .. n-1 in result order. */
  function RankPrefix(sims: seq<real>, n: nat): (r: seq<nat>)
    requires n <= |sims|
    ensures |r| == n && InRange(sims, r)
    ensures forall x: nat :: x in r <==> x < n
  {
    if n == 0 then [] else Insert(sims, RankPrefix(sims, n - 1), n - 1)
  }

  lemma {:induction false} RankPrefixOrdered(sims: seq<real>, n: nat)
    requires n <= |sims|
    ensures Ordered(sims, RankPrefix(sims, n))
  {
    if n > 0 {
      RankPrefixOrdered(sims, n - 1);
      InsertKeepsOrder(sims, RankPrefix(sims, n - 1), n - 1);
    }
  }

  /** Every position of the index, in result order. */
  function RankAll(sims: seq<real>): seq<nat>
  {
    RankPrefix(sims, |sims|)
  }

  /** The candidates of a search for the k nearest entries. */
  function TopK(sims: seq<real>, k: nat): (c: seq<nat>)
    ensures |c| == if k < |sims| then k else |sims|
    ensures InRange(sims, c)
  {
    RankAll(sims)[..if k < |sims| then k else |sims|]
  }

  /**
    The k-nearest candidates are in result order, pairwise distinct, and no
    position left out is more similar than any candidate taken.
  */
  lemma TopKSpec(sims: seq<real>, k: nat)
    ensures Ordered(sims, TopK(sims, k))
    ensures forall i, j :: 0 <= i < j < |TopK(sims, k)| ==> TopK(sims, k)[i] != TopK(sims, k)[j]
    ensures forall p, i :: 0 <= p < |sims| && p !in TopK(sims, k) && 0 <= i < |TopK(sims, k)| ==>
              sims[p] <= sims[TopK(sims, k)[i]]
  {
    var all := RankAll(sims);
    var c := TopK(sims, k);
    RankPrefixOrdered(sims, |sims|);
    assert c == all[..|c|];
    forall p, i | 0 <= p < |sims| && p !in c && 0 <= i < |c|
      ensures sims[p] <= sims[c[i]]
    {
      assert p in all;
      var j :| 0 <= j < |all| && all[j] == p;
      assert forall t :: 0 <= t < |c| ==> all[t] == c[t];
      assert j >= |c|;
      assert Precedes(sims, all[i], all[j]);
    }
  }
}
