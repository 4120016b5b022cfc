/**
  The per-game vector store: for each game an index (the stored embeddings,
  in insertion order) and a parallel metadata list. Similarity is a parameter
  standing for the cosine similarity of the normalised embeddings; because
  cosine similarity does not depend on vector length, embeddings are stored
  as given.
*/
module Faiss {
  import opened Wrappers
  import opened Json
  import Ranking
  import Numeric

  type GameId = string
  type Vector = seq<real>
  type Similarity = (Vector, Vector) -> real

  /** One metadata record of a game's index. */
  datatype Entry = Entry(contextId: int, contextData: Fields, effectivenessScore: real, indexPosition: int)

  /** One search hit, with its 1-based position among the k candidates. */
  datatype SearchResult = SearchResult(
    contextId: int, contextData: Fields, effectivenessScore: real, similarityScore: real, rank: nat)

  /** `get_index_stats`: the short form for a game without contexts, the summary otherwise. */
  datatype IndexStats =
    | NoContexts
    | Summary(totalContexts: nat, avgEffectiveness: real, maxEffectiveness: real, minEffectiveness: real)
  {
    function TotalContexts(): nat
    {
      if NoContexts? then 0 else totalContexts
    }

    function AvgEffectiveness(): real
    {
      if NoContexts? then 0.0 else avgEffectiveness
    }
  }

  // ------------------------------------------------- one game's index as values

  /** Metadata entry i records index position i. */
  predicate Positioned(es: seq<Entry>)
  {
    forall i :: 0 <= i < |es| ==> es[i].indexPosition == i
  }

  /** The store's invariant for one game: one metadata entry per stored vector, positions match. */
  predicate Consistent(vs: seq<Vector>, es: seq<Entry>, dim: nat)
  {
    && |vs| == |es|
    && Positioned(es)
    && forall i :: 0 <= i < |vs| ==> |vs[i]| == dim
  }

  /** The metadata after appending one context to an index that held `size` vectors. */
  function Appended(es: seq<Entry>, size: nat, contextId: int, data: Fields, score: real): seq<Entry>
  {
    es + [Entry(contextId, data, score, size)]
  }

  /** Appending keeps the index and the metadata in step. */
  lemma AppendKeepsConsistent(vs: seq<Vector>, es: seq<Entry>, dim: nat, v: Vector, contextId: int, data: Fields, score: real)
    requires Consistent(vs, es, dim) && |v| == dim
    ensures Consistent(vs + [v], Appended(es, |vs|, contextId, data, score), dim)
    ensures Appended(es, |vs|, contextId, data, score)[|vs|].indexPosition == |vs + [v]| - 1
  {
  }

  function Scores(es: seq<Entry>): (s: seq<real>)
    ensures |s| == |es|
    ensures forall i :: 0 <= i < |es| ==> s[i] == es[i].effectivenessScore
  {
    seq(|es|, i requires 0 <= i < |es| => es[i].effectivenessScore)
  }

  // ------------------------------------------------------------ score update

  /** Position of the first entry for `contextId`. */
  function FirstMatch(es: seq<Entry>, contextId: int): (r: Option<nat>)
    ensures r.Some? ==> r.value < |es| && es[r.value].contextId == contextId
    ensures r.Some? ==> forall j :: 0 <= j < r.value ==> es[j].contextId != contextId
    ensures r.None? ==> forall j :: 0 <= j < |es| ==> es[j].contextId != contextId
  {
    if es == [] then None
    else if es[0].contextId == contextId then Some(0)
    else match FirstMatch(es[1..], contextId)
      case Some(i) => Some(i + 1)
      case None => None
  }

  /** Entry i is the first entry for the context. */
  predicate IsFirstMatch(es: seq<Entry>, contextId: int, i: nat)
    requires i < |es|
  {
    es[i].contextId == contextId && forall j :: 0 <= j < i ==> es[j].contextId != contextId
  }

  /** The metadata after `update_effectiveness_score`. */
  function ScoreUpdated(es: seq<Entry>, contextId: int, score: real): seq<Entry>
  {
    match FirstMatch(es, contextId)
    case Some(i) => es[i := es[i].(effectivenessScore := score)]
    case None => es
  }

  /**
    A score update changes the score of the first entry for the context and
    nothing else; for an unknown context it changes nothing.
  */
  lemma ScoreUpdateChangesOnlyFirstMatch(es: seq<Entry>, contextId: int, score: real)
    ensures |ScoreUpdated(es, contextId, score)| == |es|
    ensures Positioned(es) ==> Positioned(ScoreUpdated(es, contextId, score))
    ensures forall i :: 0 <= i < |es| && IsFirstMatch(es, contextId, i) ==>
              ScoreUpdated(es, contextId, score)[i] == es[i].(effectivenessScore := score)
    ensures forall i :: 0 <= i < |es| && !IsFirstMatch(es, contextId, i) ==>
              ScoreUpdated(es, contextId, score)[i] == es[i]
  {
  }

  /**
    When a context was added twice, updating its score touches the older entry
    only; the newer one keeps the score it was added with.
  */
  lemma UpdateAfterDuplicateAddTouchesOlderEntry(
    es: seq<Entry>, contextId: int, data: Fields, first: real, second: real, score: real)
    requires forall j :: 0 <= j < |es| ==> es[j].contextId != contextId
    ensures var twice := Appended(Appended(es, |es|, contextId, data, first), |es| + 1, contextId, data, second);
            var updated := ScoreUpdated(twice, contextId, score);
            && updated[|es|].effectivenessScore == score
            && updated[|es| + 1].effectivenessScore == second
            && updated[..|es|] == es
  {
    var twice := Appended(Appended(es, |es|, contextId, data, first), |es| + 1, contextId, data, second);
    assert twice[|es|].contextId == contextId;
    assert FirstMatch(twice, contextId) == Some(|es|);
  }

  // ------------------------------------------------------------------- pruning

  /** Positions below `n` whose score is under the threshold, ascending. */
  function BelowPositions(es: seq<Entry>, threshold: real, n: nat): (r: seq<nat>)
    requires n <= |es|
    ensures forall x: nat :: x in r <==> x < n && es[x].effectivenessScore < threshold
  {
    if n == 0 then []
    else BelowPositions(es, threshold, n - 1) + (if es[n - 1].effectivenessScore < threshold then [n - 1] else [])
  }

  /** Positions below `n` whose score reaches the threshold, ascending. */
  function KeptPositions(es: seq<Entry>, threshold: real, n: nat): (r: seq<nat>)
    requires n <= |es|
    ensures forall x: nat :: x in r <==> x < n && es[x].effectivenessScore >= threshold
    ensures forall j :: 0 <= j < |r| ==> r[j] < n
  {
    if n == 0 then []
    else KeptPositions(es, threshold, n - 1) + (if es[n - 1].effectivenessScore >= threshold then [n - 1] else [])
  }

  /** The kept positions are listed in ascending order. */
  lemma {:induction false} KeptAscending(es: seq<Entry>, threshold: real, n: nat)
    requires n <= |es|
    ensures var ks := KeptPositions(es, threshold, n);
            forall j1, j2 :: 0 <= j1 < j2 < |ks| ==> ks[j1] < ks[j2]
  {
    if n > 0 {
      KeptAscending(es, threshold, n - 1);
      KeptStep(es, threshold, n - 1);
    }
  }

  /** Every position is either kept or removed. */
  lemma {:induction false} KeptPlusBelow(es: seq<Entry>, threshold: real, n: nat)
    requires n <= |es|
    ensures |KeptPositions(es, threshold, n)| + |BelowPositions(es, threshold, n)| == n
  {
    if n > 0 {
      KeptPlusBelow(es, threshold, n - 1);
      var kept, below := KeptPositions(es, threshold, n - 1), BelowPositions(es, threshold, n - 1);
      if es[n - 1].effectivenessScore >= threshold {
        assert KeptPositions(es, threshold, n) == kept + [n - 1];
        assert BelowPositions(es, threshold, n) == below;
      } else {
        assert KeptPositions(es, threshold, n) == kept;
        assert BelowPositions(es, threshold, n) == below + [n - 1];
      }
    }
  }

  /** The vectors at the given positions, in that order. */
  function Picked(vs: seq<Vector>, ks: seq<nat>): (r: seq<Vector>)
    requires forall j :: 0 <= j < |ks| ==> ks[j] < |vs|
    ensures |r| == |ks|
  {
    seq(|ks|, j requires 0 <= j < |ks| => vs[ks[j]])
  }

  /** The entries at the given positions, in that order, renumbered from 0. */
  function Renumbered(es: seq<Entry>, ks: seq<nat>): (r: seq<Entry>)
    requires forall j :: 0 <= j < |ks| ==> ks[j] < |es|
    ensures |r| == |ks| && Positioned(r)
  {
    seq(|ks|, j requires 0 <= j < |ks| => es[ks[j]].(indexPosition := j))
  }

  lemma KeptStep(es: seq<Entry>, threshold: real, i: nat)
    requires i < |es|
    ensures KeptPositions(es, threshold, i + 1) ==
              KeptPositions(es, threshold, i) + (if es[i].effectivenessScore >= threshold then [i] else [])
  {
  }

  /** One step of the rebuild: position i is appended exactly when it is kept. */
  lemma RebuildStep(vs: seq<Vector>, es: seq<Entry>, threshold: real, i: nat)
    requires |vs| == |es| && i < |es|
    ensures var ks := KeptPositions(es, threshold, i);
            if es[i].effectivenessScore >= threshold then
              && Picked(vs, KeptPositions(es, threshold, i + 1)) == Picked(vs, ks) + [vs[i]]
              && Renumbered(es, KeptPositions(es, threshold, i + 1)) == Renumbered(es, ks) + [es[i].(indexPosition := |ks|)]
            else
              && Picked(vs, KeptPositions(es, threshold, i + 1)) == Picked(vs, ks)
              && Renumbered(es, KeptPositions(es, threshold, i + 1)) == Renumbered(es, ks)
  {
    var ks := KeptPositions(es, threshold, i);
    KeptStep(es, threshold, i);
    if es[i].effectivenessScore >= threshold {
      PickedAppend(vs, ks, i);
      RenumberedAppend(es, ks, i);
    }
  }

  lemma PickedAppend(vs: seq<Vector>, ks: seq<nat>, p: nat)
    requires forall j :: 0 <= j < |ks| ==> ks[j] < |vs|
    requires p < |vs|
    ensures Picked(vs, ks + [p]) == Picked(vs, ks) + [vs[p]]
  {
  }

  lemma RenumberedAppend(es: seq<Entry>, ks: seq<nat>, p: nat)
    requires forall j :: 0 <= j < |ks| ==> ks[j] < |es|
    requires p < |es|
    ensures Renumbered(es, ks + [p]) == Renumbered(es, ks) + [es[p].(indexPosition := |ks|)]
  {
  }

  /** The metadata after pruning: the kept entries in order, renumbered from 0. */
  function PrunedEntries(es: seq<Entry>, threshold: real): seq<Entry>
  {
    Renumbered(es, KeptPositions(es, threshold, |es|))
  }

  /** The index after pruning: the kept vectors in order. */
  function PrunedVectors(vs: seq<Vector>, es: seq<Entry>, threshold: real): seq<Vector>
    requires |vs| == |es|
  {
    Picked(vs, KeptPositions(es, threshold, |es|))
  }

  /**
    Pruning keeps exactly the entries scoring at least the threshold, in their
    original order, renumbers them 0..n-1, and keeps index and metadata in step.
  */
  lemma PruneSpec(vs: seq<Vector>, es: seq<Entry>, dim: nat, threshold: real)
    requires Consistent(vs, es, dim)
    ensures Consistent(PrunedVectors(vs, es, threshold), PrunedEntries(es, threshold), dim)
    ensures forall j :: 0 <= j < |PrunedEntries(es, threshold)| ==>
              PrunedEntries(es, threshold)[j].effectivenessScore >= threshold
    ensures forall i :: 0 <= i < |es| && es[i].effectivenessScore >= threshold ==>
              exists j :: 0 <= j < |PrunedEntries(es, threshold)| &&
                PrunedEntries(es, threshold)[j] == es[i].(indexPosition := j) &&
                PrunedVectors(vs, es, threshold)[j] == vs[i]
    ensures |PrunedEntries(es, threshold)| == |es| - |BelowPositions(es, threshold, |es|)|
  {
    PruneConsistent(vs, es, dim, threshold);
    KeptPlusBelow(es, threshold, |es|);
    forall i | 0 <= i < |es| && es[i].effectivenessScore >= threshold
      ensures exists j :: 0 <= j < |PrunedEntries(es, threshold)| &&
                PrunedEntries(es, threshold)[j] == es[i].(indexPosition := j) &&
                PrunedVectors(vs, es, threshold)[j] == vs[i]
    {
      var j := PruneKeeps(vs, es, threshold, i);
    }
  }

  /** Pruning a consistent index leaves a consistent one whose entries all reach the threshold. */
  lemma PruneConsistent(vs: seq<Vector>, es: seq<Entry>, dim: nat, threshold: real)
    requires Consistent(vs, es, dim)
    ensures Consistent(PrunedVectors(vs, es, threshold), PrunedEntries(es, threshold), dim)
    ensures forall j :: 0 <= j < |PrunedEntries(es, threshold)| ==>
              PrunedEntries(es, threshold)[j].effectivenessScore >= threshold
  {
    var ks := KeptPositions(es, threshold, |es|);
    var pv := PrunedVectors(vs, es, threshold);
    forall j | 0 <= j < |pv|
      ensures |pv[j]| == dim
    {
      assert pv[j] == vs[ks[j]];
    }
    forall j | 0 <= j < |ks|
      ensures PrunedEntries(es, threshold)[j].effectivenessScore >= threshold
    {
      assert ks[j] in ks;
    }
  }

  /** A position that reaches the threshold survives pruning, at the slot it returns. */
  lemma PruneKeeps(vs: seq<Vector>, es: seq<Entry>, threshold: real, i: nat) returns (j: nat)
    requires |vs| == |es| && i < |es| && es[i].effectivenessScore >= threshold
    ensures j < |PrunedEntries(es, threshold)|
    ensures PrunedEntries(es, threshold)[j] == es[i].(indexPosition := j)
    ensures PrunedVectors(vs, es, threshold)[j] == vs[i]
  {
    var ks := KeptPositions(es, threshold, |es|);
    assert i in ks;
    j :| 0 <= j < |ks| && ks[j] == i;
  }

  /** Relative order survives pruning: kept entries appear in the order they had. */
  lemma PruneKeepsOrder(es: seq<Entry>, threshold: real, j1: nat, j2: nat)
    requires j1 < j2 < |PrunedEntries(es, threshold)|
    ensures var ks := KeptPositions(es, threshold, |es|);
            && ks[j1] < ks[j2]
            && PrunedEntries(es, threshold)[j1] == es[ks[j1]].(indexPosition := j1)
            && PrunedEntries(es, threshold)[j2] == es[ks[j2]].(indexPosition := j2)
  {
    KeptAscending(es, threshold, |es|);
  }

  /** With nothing under the threshold, pruning a positioned list changes nothing. */
  lemma {:induction false} PruneNothingIsIdentity(es: seq<Entry>, threshold: real)
    requires Positioned(es)
    requires BelowPositions(es, threshold, |es|) == []
    ensures PrunedEntries(es, threshold) == es
  {
    var ks := KeptPositions(es, threshold, |es|);
    KeptPlusBelow(es, threshold, |es|);
    KeptAscending(es, threshold, |es|);
    forall j | 0 <= j < |ks|
      ensures ks[j] == j
    {
      KeptIsIdentity(ks, |es|, j);
    }
  }

  /** A strictly increasing list of n naturals below n is 0, 1, ..., n-1. */
  lemma {:induction false} KeptIsIdentity(ks: seq<nat>, n: nat, j: nat)
    requires |ks| == n && j < n
    requires forall t :: 0 <= t < |ks| ==> ks[t] < n
    requires forall t1, t2 :: 0 <= t1 < t2 < |ks| ==> ks[t1] < ks[t2]
    ensures ks[j] == j
  {
    IncreasingAtLeastIndex(ks, j);
    IncreasingAtMostIndex(ks, n, j);
  }

  lemma {:induction false} IncreasingAtLeastIndex(ks: seq<nat>, j: nat)
    requires j < |ks|
    requires forall t1, t2 :: 0 <= t1 < t2 < |ks| ==> ks[t1] < ks[t2]
    ensures ks[j] >= j
  {
    if j > 0 {
      IncreasingAtLeastIndex(ks, j - 1);
    }
  }

  lemma {:induction false} IncreasingAtMostIndex(ks: seq<nat>, n: nat, j: nat)
    requires |ks| == n && j < n
    requires forall t :: 0 <= t < |ks| ==> ks[t] < n
    requires forall t1, t2 :: 0 <= t1 < t2 < |ks| ==> ks[t1] < ks[t2]
    decreases n - j
    ensures ks[j] <= j
  {
    if j < n - 1 {
      IncreasingAtMostIndex(ks, n, j + 1);
    }
  }

  // ------------------------------------------------------------------- search

  /** Similarity of the query to every stored vector. */
  function Sims(vs: seq<Vector>, query: Vector, sim: Similarity): (s: seq<real>)
    ensures |s| == |vs|
    ensures forall i :: 0 <= i < |vs| ==> s[i] == sim(query, vs[i])
  {
    seq(|vs|, i requires 0 <= i < |vs| => sim(query, vs[i]))
  }

  function Hit(e: Entry, similarity: real, rank: nat): SearchResult
  {
    SearchResult(e.contextId, e.contextData, e.effectivenessScore, similarity, rank)
  }

  /**
    The results kept from the first n candidates: each is the entry at its
    candidate position, carries that 1-based position as its rank, and meets
    the effectiveness bound; ranks strictly increase.
  */
  function Survivors(es: seq<Entry>, sims: seq<real>, cands: seq<nat>, minEffectiveness: real, n: nat): (rs: seq<SearchResult>)
    requires n <= |cands| && |sims| == |es| && Ranking.InRange(sims, cands)
    ensures |rs| <= n
    ensures forall i :: 0 <= i < |rs| ==> 1 <= rs[i].rank <= n
    ensures forall i :: 0 <= i < |rs| ==> rs[i].effectivenessScore >= minEffectiveness
    ensures forall i :: 0 <= i < |rs| ==>
              rs[i] == Hit(es[cands[rs[i].rank - 1]], sims[cands[rs[i].rank - 1]], rs[i].rank)
    ensures forall i, j :: 0 <= i < j < |rs| ==> rs[i].rank < rs[j].rank
  {
    if n == 0 then []
    else
      var prior := Survivors(es, sims, cands, minEffectiveness, n - 1);
      var e := es[cands[n - 1]];
      if e.effectivenessScore >= minEffectiveness then prior + [Hit(e, sims[cands[n - 1]], n)] else prior
  }

  /** One step of the search loop: candidate n is kept exactly when it meets the bound. */
  lemma SurvivorsStep(es: seq<Entry>, sims: seq<real>, cands: seq<nat>, minEffectiveness: real, n: nat)
    requires n < |cands| && |sims| == |es| && Ranking.InRange(sims, cands)
    ensures Survivors(es, sims, cands, minEffectiveness, n + 1) ==
              Survivors(es, sims, cands, minEffectiveness, n)
              + (if es[cands[n]].effectivenessScore >= minEffectiveness then [Hit(es[cands[n]], sims[cands[n]], n + 1)] else [])
  {
  }

  /** Every candidate among the first n that meets the bound is among the results. */
  lemma {:induction false} SurvivorsComplete(es: seq<Entry>, sims: seq<real>, cands: seq<nat>, minEffectiveness: real, n: nat, t: nat)
    requires n <= |cands| && |sims| == |es| && Ranking.InRange(sims, cands)
    requires t < n && es[cands[t]].effectivenessScore >= minEffectiveness
    ensures exists i :: 0 <= i < |Survivors(es, sims, cands, minEffectiveness, n)| &&
              Survivors(es, sims, cands, minEffectiveness, n)[i].rank == t + 1
  {
    var rs := Survivors(es, sims, cands, minEffectiveness, n);
    if t < n - 1 {
      SurvivorsComplete(es, sims, cands, minEffectiveness, n - 1, t);
      var prior := Survivors(es, sims, cands, minEffectiveness, n - 1);
      var i :| 0 <= i < |prior| && prior[i].rank == t + 1;
      assert rs[i] == prior[i];
    } else {
      assert rs[|rs| - 1].rank == n;
    }
  }

  /** The candidate positions of a search: the k positions most similar to the query. */
  function Candidates(vs: seq<Vector>, query: Vector, k: nat, sim: Similarity): (c: seq<nat>)
    ensures Ranking.InRange(Sims(vs, query, sim), c)
  {
    Ranking.TopK(Sims(vs, query, sim), k)
  }

  /** `search_similar_contexts` on one game's index. */
  function SearchIndex(vs: seq<Vector>, es: seq<Entry>, dim: nat, query: Vector, k: nat,
                       minEffectiveness: real, sim: Similarity): seq<SearchResult>
    requires |vs| == |es|
  {
    if |vs| == 0 || |query| != dim then []
    else
      var sims := Sims(vs, query, sim);
      var cands := Candidates(vs, query, k, sim);
      Survivors(es, sims, cands, minEffectiveness, |cands|)
  }

  /**
    What a search promises: every result meets the effectiveness bound; there
    are at most min(k, n) of them; their ranks are 1-based candidate positions,
    strictly increasing; similarity never increases down the list; each result
    is the entry at its candidate position; and every candidate that meets the
    bound is returned. Candidates are only the k most similar entries, so fewer
    than k results can come back while more entries qualify.
  */
  lemma SearchSpec(vs: seq<Vector>, es: seq<Entry>, dim: nat, query: Vector, k: nat,
                   minEffectiveness: real, sim: Similarity)
    requires |vs| == |es|
    ensures var rs := SearchIndex(vs, es, dim, query, k, minEffectiveness, sim);
      && (|vs| == 0 || |query| != dim ==> rs == [])
      && |rs| <= (if k < |vs| then k else |vs|)
      && (forall i :: 0 <= i < |rs| ==> rs[i].effectivenessScore >= minEffectiveness)
      && (forall i :: 0 <= i < |rs| ==> 1 <= rs[i].rank <= (if k < |vs| then k else |vs|))
      && (forall i, j :: 0 <= i < j < |rs| ==> rs[i].rank < rs[j].rank)
      && (forall i, j :: 0 <= i < j < |rs| ==> rs[i].similarityScore >= rs[j].similarityScore)
      && (forall i :: 0 <= i < |rs| ==> rs[i].similarityScore == sim(query, vs[Candidates(vs, query, k, sim)[rs[i].rank - 1]]))
  {
    if |vs| > 0 && |query| == dim {
      var sims := Sims(vs, query, sim);
      var cands := Candidates(vs, query, k, sim);
      Ranking.TopKSpec(sims, k);
      var rs := Survivors(es, sims, cands, minEffectiveness, |cands|);
      forall i, j | 0 <= i < j < |rs|
        ensures rs[i].similarityScore >= rs[j].similarityScore
      {
        var a, b := rs[i].rank - 1, rs[j].rank - 1;
        assert a < b;
        assert Ranking.Precedes(sims, cands[a], cands[b]);
      }
    }
  }

  /** Every one of the k candidates that meets the effectiveness bound is returned. */
  lemma SearchComplete(vs: seq<Vector>, es: seq<Entry>, dim: nat, query: Vector, k: nat,
                       minEffectiveness: real, sim: Similarity, t: nat)
    requires |vs| == |es| && |vs| > 0 && |query| == dim
    requires t < |Candidates(vs, query, k, sim)|
    requires es[Candidates(vs, query, k, sim)[t]].effectivenessScore >= minEffectiveness
    ensures var p := Candidates(vs, query, k, sim)[t];
            Hit(es[p], sim(query, vs[p]), t + 1) in SearchIndex(vs, es, dim, query, k, minEffectiveness, sim)
  {
    var sims := Sims(vs, query, sim);
    var cands := Candidates(vs, query, k, sim);
    SurvivorsComplete(es, sims, cands, minEffectiveness, |cands|, t);
    var rs := Survivors(es, sims, cands, minEffectiveness, |cands|);
    var i :| 0 <= i < |rs| && rs[i].rank == t + 1;
    assert rs[i] == Hit(es[cands[t]], sims[cands[t]], t + 1);
  }

  /**
    The search does not over-fetch: with k = 1 the single candidate is the most
    similar entry; when it scores under the bound the result is empty, although
    another entry meets the bound.
  */
  lemma NoOverFetch()
    ensures var es := [Entry(1, [], 0.1, 0), Entry(2, [], 0.9, 1)];
            var vs: seq<Vector> := [[1.0], [0.5]];
            var sim: Similarity := (q: Vector, v: Vector) => if |q| > 0 && |v| > 0 then q[0] * v[0] else 0.0;
            && es[1].effectivenessScore >= 0.3
            && SearchIndex(vs, es, 1, [1.0], 1, 0.3, sim) == []
  {
    var es := [Entry(1, [], 0.1, 0), Entry(2, [], 0.9, 1)];
    var vs: seq<Vector> := [[1.0], [0.5]];
    var sim: Similarity := (q: Vector, v: Vector) => if |q| > 0 && |v| > 0 then q[0] * v[0] else 0.0;
    var sims := Sims(vs, [1.0], sim);
    assert sims == [1.0, 0.5];
    assert Ranking.RankPrefix(sims, 1) == [0];
    assert [0][1..] == [];
    assert Ranking.Insert(sims, [], 1) == [1];
    assert Ranking.Insert(sims, [0], 1) == [0, 1];
    assert Ranking.RankPrefix(sims, 2) == [0, 1];
    assert Ranking.TopK(sims, 1) == [0];
  }

  // ------------------------------------------------------------------- stats

  /** `get_index_stats` over one game's metadata. */
  function StatsOf(es: seq<Entry>, size: nat): (st: IndexStats)
    ensures es == [] <==> st == NoContexts
    ensures st.Summary? ==> st.totalContexts == size
    ensures st.Summary? ==> st.minEffectiveness <= st.avgEffectiveness <= st.maxEffectiveness
  {
    if es == [] then NoContexts
    else
      var s := Scores(es);
      Numeric.MeanBetweenMinAndMax(s);
      Summary(size, Numeric.Mean(s), Numeric.Max(s), Numeric.Min(s))
  }

  // ------------------------------------------------------------------- store

  lemma UpdateSame<K, V>(m: map<K, V>, k: K, v: V)
    ensures k in m && m[k] == v ==> m[k := v] == m
  {
  }

  lemma UpdateTwice<K, V>(m: map<K, V>, k: K, a: V, b: V)
    ensures m[k := a][k := b] == m[k := b]
  {
  }

  /** Every game has both an index and metadata, and the two are consistent. */
  predicate AllConsistent(indexes: map<GameId, seq<Vector>>, metadata: map<GameId, seq<Entry>>, dim: nat)
  {
    && indexes.Keys == metadata.Keys
    && forall g :: g in indexes ==> Consistent(indexes[g], metadata[g], dim)
  }

  /** Replacing one game's index and metadata by a consistent pair keeps the whole store consistent. */
  lemma ReplaceKeepsAllConsistent(indexes: map<GameId, seq<Vector>>, metadata: map<GameId, seq<Entry>>, dim: nat,
                                  g: GameId, vs: seq<Vector>, es: seq<Entry>)
    requires AllConsistent(indexes, metadata, dim) && Consistent(vs, es, dim)
    ensures AllConsistent(indexes[g := vs], metadata[g := es], dim)
  {
  }


  class FaissService {
    const dimension: nat
    var indexes: map<GameId, seq<Vector>>
    var metadata: map<GameId, seq<Entry>>

    ghost predicate Valid()
      reads this
    {
      AllConsistent(indexes, metadata, dimension)
    }

    constructor (dimension: nat)
      ensures Valid()
      ensures this.dimension == dimension && indexes == map[] && metadata == map[]
    {
      this.dimension := dimension;
      indexes := map[];
      metadata := map[];
    }

    /** The game's index, created empty with empty metadata on first use. */
    method GetOrCreateIndex(gameId: GameId) returns (index: seq<Vector>)
      requires Valid()
      modifies this
      ensures Valid()
      ensures old(gameId in indexes) ==> indexes == old(indexes) && metadata == old(metadata)
      ensures old(gameId !in indexes) ==>
                indexes == old(indexes)[gameId := []] && metadata == old(metadata)[gameId := []]
      ensures gameId in indexes && index == indexes[gameId]
    {
      if gameId !in indexes {
        indexes := indexes[gameId := []];
        metadata := metadata[gameId := []];
      }
      index := indexes[gameId];
    }

    /**
      Appends one context. An embedding of the wrong dimension is refused by
      the index after the game's index has been created.
    */
    method AddContext(gameId: GameId, contextId: int, embedding: Vector, contextData: Fields,
                      effectivenessScore: real) returns (ok: bool)
      requires Valid()
      modifies this
      ensures Valid()
      ensures ok <==> |embedding| == dimension
      ensures var vs := if old(gameId in indexes) then old(indexes[gameId]) else [];
              var es := if old(gameId in metadata) then old(metadata[gameId]) else [];
              && indexes == old(indexes)[gameId := if ok then vs + [embedding] else vs]
              && metadata == old(metadata)[gameId := if ok then Appended(es, |vs|, contextId, contextData, effectivenessScore) else es]
    {
      ghost var vs := if gameId in indexes then indexes[gameId] else [];
      ghost var es := if gameId in metadata then metadata[gameId] else [];
      var index := GetOrCreateIndex(gameId);
      assert index == vs && metadata[gameId] == es;
      UpdateSame(old(indexes), gameId, vs);
      UpdateSame(old(metadata), gameId, es);
      if |embedding| != dimension {
        return false;
      }
      var newEntries := Appended(metadata[gameId], |index|, contextId, contextData, effectivenessScore);
      AppendKeepsConsistent(index, es, dimension, embedding, contextId, contextData, effectivenessScore);
      ReplaceKeepsAllConsistent(indexes, metadata, dimension, gameId, index + [embedding], newEntries);
      UpdateTwice(old(indexes), gameId, vs, index + [embedding]);
      UpdateTwice(old(metadata), gameId, es, newEntries);
      indexes := indexes[gameId := index + [embedding]];
      metadata := metadata[gameId := newEntries];
      ok := true;
    }

    /** The k most similar entries, filtered by effectiveness. */
    method SearchSimilarContexts(gameId: GameId, query: Vector, k: nat, minEffectiveness: real,
                                 sim: Similarity) returns (results: seq<SearchResult>)
      requires Valid()
      ensures gameId !in indexes ==> results == []
      ensures gameId in indexes ==>
                results == SearchIndex(indexes[gameId], metadata[gameId], dimension, query, k, minEffectiveness, sim)
    {
      if gameId !in indexes {
        return [];
      }
      var index := indexes[gameId];
      if |index| == 0 || |query| != dimension {
        return [];
      }
      var es := metadata[gameId];
      assert Consistent(index, es, dimension);
      var sims := Sims(index, query, sim);
      var cands := Candidates(index, query, k, sim);
      results := [];
      var i := 0;
      while i < |cands|
        invariant 0 <= i <= |cands|
        invariant results == Survivors(es, sims, cands, minEffectiveness, i)
      {
        SurvivorsStep(es, sims, cands, minEffectiveness, i);
        var entry := es[cands[i]];
        if entry.effectivenessScore >= minEffectiveness {
          results := results + [Hit(entry, sims[cands[i]], i + 1)];
        }
        i := i + 1;
      }
    }

    /** Sets the score of the first entry for the context; unknown games and contexts are left alone. */
    method UpdateEffectivenessScore(gameId: GameId, contextId: int, newScore: real)
      requires Valid()
      modifies this
      ensures Valid()
      ensures indexes == old(indexes)
      ensures old(gameId in metadata) ==>
                metadata == old(metadata)[gameId := ScoreUpdated(old(metadata[gameId]), contextId, newScore)]
      ensures old(gameId !in metadata) ==> metadata == old(metadata)
    {
      if gameId !in metadata {
        return;
      }
      var es := metadata[gameId];
      ScoreUpdateChangesOnlyFirstMatch(es, contextId, newScore);
      var i := 0;
      while i < |es|
        invariant 0 <= i <= |es|
        invariant forall j :: 0 <= j < i ==> es[j].contextId != contextId
      {
        if es[i].contextId == contextId {
          metadata := metadata[gameId := es[i := es[i].(effectivenessScore := newScore)]];
          return;
        }
        i := i + 1;
      }
    }

    /** Rebuilds the game's index without the entries scoring under the threshold. */
    method RemoveIneffectiveContexts(gameId: GameId, minEffectiveness: real)
      requires Valid()
      modifies this
      ensures Valid()
      ensures old(gameId !in indexes) ==> indexes == old(indexes) && metadata == old(metadata)
      ensures old(gameId in indexes) && BelowPositions(old(metadata[gameId]), minEffectiveness, old(|metadata[gameId]|)) == [] ==>
                indexes == old(indexes) && metadata == old(metadata)
      ensures old(gameId in indexes) ==>
                && indexes == old(indexes)[gameId := PrunedVectors(old(indexes[gameId]), old(metadata[gameId]), minEffectiveness)]
                && metadata == old(metadata)[gameId := PrunedEntries(old(metadata[gameId]), minEffectiveness)]
    {
      if gameId !in indexes || gameId !in metadata {
        return;
      }
      var oldIndex := indexes[gameId];
      var oldMetadata := metadata[gameId];
      assert Consistent(oldIndex, oldMetadata, dimension);
      PruneConsistent(oldIndex, oldMetadata, dimension, minEffectiveness);

      var toRemove := IneffectivePositions(oldMetadata, minEffectiveness);
      if toRemove == [] {
        PruneNothingIsIdentity(oldMetadata, minEffectiveness);
        PruneNothingVectors(oldIndex, oldMetadata, minEffectiveness);
        return;
      }
      var newIndex, newMetadata := Rebuild(oldIndex, oldMetadata, minEffectiveness, toRemove);
      indexes := indexes[gameId := newIndex];
      metadata := metadata[gameId := newMetadata];
    }

    /** Statistics of a game's index; the short form for an unknown or empty game. */
    function GetIndexStats(gameId: GameId): (st: IndexStats)
      reads this
      requires Valid()
      ensures gameId !in indexes ==> st == NoContexts
      ensures gameId in indexes ==> (st == NoContexts <==> |indexes[gameId]| == 0)
      ensures st.Summary? ==> gameId in metadata && st.totalContexts == |metadata[gameId]| == |indexes[gameId]|
      ensures st.Summary? ==> st.minEffectiveness <= st.avgEffectiveness <= st.maxEffectiveness
    {
      if gameId !in indexes then NoContexts
      else StatsOf(if gameId in metadata then metadata[gameId] else [], |indexes[gameId]|)
    }
  }

  /** The positions of the entries scoring under the threshold, ascending. */
  method IneffectivePositions(es: seq<Entry>, threshold: real) returns (toRemove: seq<nat>)
    ensures toRemove == BelowPositions(es, threshold, |es|)
    ensures forall x :: 0 <= x < |es| ==> (x in toRemove <==> es[x].effectivenessScore < threshold)
  {
    toRemove := [];
    var i := 0;
    while i < |es|
      invariant 0 <= i <= |es|
      invariant toRemove == BelowPositions(es, threshold, i)
    {
      if es[i].effectivenessScore < threshold {
        toRemove := toRemove + [i];
      }
      i := i + 1;
    }
  }

  /** A fresh index and metadata holding the entries not listed for removal, renumbered in order. */
  method Rebuild(vs: seq<Vector>, es: seq<Entry>, threshold: real, toRemove: seq<nat>)
    returns (newIndex: seq<Vector>, newMetadata: seq<Entry>)
    requires |vs| == |es|
    requires forall x :: 0 <= x < |es| ==> (x in toRemove <==> es[x].effectivenessScore < threshold)
    ensures newIndex == PrunedVectors(vs, es, threshold)
    ensures newMetadata == PrunedEntries(es, threshold)
  {
    newIndex := [];
    newMetadata := [];
    var i := 0;
    while i < |es|
      invariant 0 <= i <= |es|
      invariant newIndex == Picked(vs, KeptPositions(es, threshold, i))
      invariant newMetadata == Renumbered(es, KeptPositions(es, threshold, i))
    {
      RebuildStep(vs, es, threshold, i);
      if i !in toRemove {
        assert es[i].effectivenessScore >= threshold;
        ghost var ks := KeptPositions(es, threshold, i);
        assert |newIndex| == |ks|;
        newIndex := newIndex + [vs[i]];
        newMetadata := newMetadata + [es[i].(indexPosition := |newIndex| - 1)];
        assert newMetadata == Renumbered(es, ks) + [es[i].(indexPosition := |ks|)];
      } else {
        assert es[i].effectivenessScore < threshold;
      }
      i := i + 1;
    }
  }

  /** With nothing under the threshold, pruning keeps every vector. */
  lemma PruneNothingVectors(vs: seq<Vector>, es: seq<Entry>, threshold: real)
    requires |vs| == |es|
    requires BelowPositions(es, threshold, |es|) == []
    ensures PrunedVectors(vs, es, threshold) == vs
  {
    var ks := KeptPositions(es, threshold, |es|);
    KeptPlusBelow(es, threshold, |es|);
    KeptAscending(es, threshold, |es|);
    forall j | 0 <= j < |ks|
      ensures ks[j] == j
    {
      KeptIsIdentity(ks, |es|, j);
    }
  }
}
