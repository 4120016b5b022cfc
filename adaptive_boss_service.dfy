/**
  The orchestration of the adaptive boss: game registration, action
  generation with a response cache and de-duplicated context records,
  outcome logging that feeds effective contexts to the vector store, and the
  per-game statistics. Database tables are sequences whose row ids are their
  positions plus one; the response cache is a map from key to response.
  Embeddings, context hashes and prompt-engine replies are parameters.
*/
module AdaptiveBoss {
  import opened Wrappers
  import opened Json
  import opened Models
  import Text
  import Numeric
  import Faiss
  import JigsawStack

  const CacheTtlSeconds := 3600
  const MinEffectivenessScore := 0.3
  const MaxSimilarContexts := 5
  const SuccessThreshold := 0.5
  const RecentWindow := 10

  datatype GameRow = GameRow(gameId: string, name: string, description: Option<string>, vocabulary: Fields)

  datatype PromptRow = PromptRow(
    game: int, promptEngineId: string, promptName: string, promptTemplate: string, isActive: bool)

  /** A stored player context; an empty embedding stands for a missing one. */
  datatype ContextRow = ContextRow(game: int, contextHash: string, playerContext: Fields, embedding: Faiss.Vector)

  datatype ActionRow = ActionRow(
    game: int,
    context: int,
    actionData: BossActionResponse,
    outcome: Option<GameActionOutcome>,
    effectivenessScore: Option<real>,
    damageDealt: Option<real>,
    playerHit: Option<bool>)

  datatype RegistrationResponse = RegistrationResponse(
    success: bool, message: string, gameId: string, promptEngineId: Option<string>)

  // ------------------------------------------------------------ row lookups

  /** Position of the game row with this game id. */
  function FindGame(games: seq<GameRow>, gameId: string): (r: Option<nat>)
    ensures r.Some? ==> r.value < |games| && games[r.value].gameId == gameId
    ensures r.Some? ==> forall i :: 0 <= i < r.value ==> games[i].gameId != gameId
    ensures r.None? <==> forall i :: 0 <= i < |games| ==> games[i].gameId != gameId
  {
    if games == [] then None
    else if games[0].gameId == gameId then Some(0)
    else match FindGame(games[1..], gameId)
      case Some(i) => Some(i + 1)
      case None => None
  }

  /** Position of the first active prompt of the game row with id `game`. */
  function ActivePrompt(prompts: seq<PromptRow>, game: int): (r: Option<nat>)
    ensures r.Some? ==> r.value < |prompts| && prompts[r.value].game == game && prompts[r.value].isActive
    ensures r.None? <==> forall i :: 0 <= i < |prompts| ==> !(prompts[i].game == game && prompts[i].isActive)
  {
    if prompts == [] then None
    else if prompts[0].game == game && prompts[0].isActive then Some(0)
    else match ActivePrompt(prompts[1..], game)
      case Some(i) => Some(i + 1)
      case None => None
  }

  /**
    The game row id an action is generated for: the game must be registered
    and have an active prompt, and each failure has its own message.
  */
  function Target(games: seq<GameRow>, prompts: seq<PromptRow>, gameId: string): (r: Result<int, string>)
    ensures FindGame(games, gameId).None? ==> r == Failure("Game " + gameId + " not found")
    ensures FindGame(games, gameId).Some? && ActivePrompt(prompts, FindGame(games, gameId).value + 1).None? ==>
              r == Failure("No active prompt found for game " + gameId)
    ensures r.Success? ==> 0 < r.value <= |games| && games[r.value - 1].gameId == gameId
    ensures r.Success? ==> forall i :: 0 <= i < r.value - 1 ==> games[i].gameId != gameId
    ensures r.Success? ==> exists j :: 0 <= j < |prompts| && prompts[j].game == r.value && prompts[j].isActive
  {
    match FindGame(games, gameId)
    case None => Failure("Game " + gameId + " not found")
    case Some(i) =>
      if ActivePrompt(prompts, i + 1).None? then Failure("No active prompt found for game " + gameId)
      else Success(i + 1)
  }

  /** Position of the context row for this game and hash. */
  function FindContext(contexts: seq<ContextRow>, game: int, contextHash: string): (r: Option<nat>)
    ensures r.Some? ==> r.value < |contexts| && contexts[r.value].game == game && contexts[r.value].contextHash == contextHash
    ensures r.None? <==> forall i :: 0 <= i < |contexts| ==> !(contexts[i].game == game && contexts[i].contextHash == contextHash)
  {
    if contexts == [] then None
    else if contexts[0].game == game && contexts[0].contextHash == contextHash then Some(0)
    else match FindContext(contexts[1..], game, contextHash)
      case Some(i) => Some(i + 1)
      case None => None
  }

  predicate UniqueGameIds(games: seq<GameRow>)
  {
    forall i, j :: 0 <= i < j < |games| ==> games[i].gameId != games[j].gameId
  }

  /** No two context records share a game and a hash. */
  predicate UniqueContexts(contexts: seq<ContextRow>)
  {
    forall i, j :: 0 <= i < j < |contexts| ==>
      !(contexts[i].game == contexts[j].game && contexts[i].contextHash == contexts[j].contextHash)
  }

  /** No two prompt rows share a prompt-engine id (the column is unique). */
  predicate UniquePromptEngineIds(prompts: seq<PromptRow>)
  {
    forall i, j :: 0 <= i < j < |prompts| ==> prompts[i].promptEngineId != prompts[j].promptEngineId
  }

  /**
    Whether the registration's commit succeeds on Postgres, which enforces the
    declared column limits: the game id fits `String(100)` and the name
    `String(200)`; the prompt's name, the game name with "_boss_behavior"
    appended, fits `String(200)`; and the prompt-engine id is present (NOT
    NULL), fits `String(100)` and is not used by another prompt row (unique).
  */
  predicate CommitAccepts(prompts: seq<PromptRow>, gameId: string, name: string, id: Option<string>)
  {
    && |gameId| <= 100 && |name| <= 200 && |name + "_boss_behavior"| <= 200
    && id.Some? && |id.value| <= 100
    && forall i :: 0 <= i < |prompts| ==> prompts[i].promptEngineId != id.value
  }

  /** Every stored player context is the dump of a player context. */
  ghost predicate DumpedContexts(contexts: seq<ContextRow>)
  {
    forall i :: 0 <= i < |contexts| ==> IsPlayerContextDump(contexts[i].playerContext)
  }

  /** Every context in the vector store's metadata is the dump of a player context. */
  ghost predicate DumpedEntries(metadata: map<Faiss.GameId, seq<Faiss.Entry>>)
  {
    forall g, j :: g in metadata && 0 <= j < |metadata[g]| ==> IsPlayerContextDump(metadata[g][j].contextData)
  }

  lemma WithContextKeepsDumps(contexts: seq<ContextRow>, game: int, hash: string, player: PlayerContextData,
                              embedding: Faiss.Vector)
    requires DumpedContexts(contexts)
    ensures DumpedContexts(WithContext(contexts, game, hash, DumpPlayerContext(player), embedding))
  {
    assert IsPlayerContextDump(DumpPlayerContext(player));
  }

  lemma UpdateKeepsDumps(metadata: map<Faiss.GameId, seq<Faiss.Entry>>, g: Faiss.GameId, es: seq<Faiss.Entry>)
    requires DumpedEntries(metadata)
    requires forall j :: 0 <= j < |es| ==> IsPlayerContextDump(es[j].contextData)
    ensures DumpedEntries(metadata[g := es])
  {
  }

  /** The metadata after an addition, accepted or refused, holds only dumps when the data added is one. */
  lemma AddKeepsDumps(metadata: map<Faiss.GameId, seq<Faiss.Entry>>, g: Faiss.GameId, es: seq<Faiss.Entry>,
                      contextId: int, data: Fields, score: real, after: seq<Faiss.Entry>)
    requires DumpedEntries(metadata) && IsPlayerContextDump(data)
    requires es == (if g in metadata then metadata[g] else [])
    requires after == es || exists size :: after == Faiss.Appended(es, size, contextId, data, score)
    ensures DumpedEntries(metadata[g := after])
  {
    forall j | 0 <= j < |after|
      ensures IsPlayerContextDump(after[j].contextData)
    {
      if j < |es| {
        assert after[j] == es[j];
      }
    }
    UpdateKeepsDumps(metadata, g, after);
  }

  // ------------------------------------------------------ similar contexts

  /**
    The contexts a generation hands to the prompt engine: the vector store's
    search of the game's index for the five most similar contexts whose
    effectiveness is at least 0.3; none for a game without an index.
  */
  function SimilarIn(indexes: map<Faiss.GameId, seq<Faiss.Vector>>, metadata: map<Faiss.GameId, seq<Faiss.Entry>>,
                     dim: nat, gameId: string, query: Faiss.Vector, sim: Faiss.Similarity): seq<Faiss.SearchResult>
    requires Faiss.AllConsistent(indexes, metadata, dim)
  {
    if gameId in indexes
    then Faiss.SearchIndex(indexes[gameId], metadata[gameId], dim, query, MaxSimilarContexts, MinEffectivenessScore, sim)
    else []
  }

  /**
    The prompt inputs of a generation: the formatted player context and
    similar contexts, the boss's health and the phase, and the request's
    "environment" factor, "standard arena" when it has none.
  */
  function PromptFor(request: BossActionRequest, similar: seq<Faiss.SearchResult>, r: JigsawStack.Renderer): Fields
    requires JigsawStack.SimilarContextsText(similar, r).Some?
  {
    JigsawStack.PromptInputs(Text.Join(JigsawStack.PlayerContextParts(request.playerContext, r), JigsawStack.Separator),
                             JigsawStack.SimilarContextsText(similar, r).value,
                             request.bossHealthPercentage, request.battlePhase,
                             GetOr(request.environmentFactors, "environment", VStr("standard arena")))
  }

  /**
    A store whose every entry is a dumped player context yields situations
    that always render: every search result carries the data of an entry.
  */
  lemma SimilarRender(indexes: map<Faiss.GameId, seq<Faiss.Vector>>, metadata: map<Faiss.GameId, seq<Faiss.Entry>>,
                      dim: nat, gameId: string, query: Faiss.Vector, sim: Faiss.Similarity, r: JigsawStack.Renderer)
    requires Faiss.AllConsistent(indexes, metadata, dim) && DumpedEntries(metadata)
    ensures JigsawStack.SimilarContextsText(SimilarIn(indexes, metadata, dim, gameId, query, sim), r).Some?
  {
    var rs := SimilarIn(indexes, metadata, dim, gameId, query, sim);
    if gameId in indexes && |indexes[gameId]| != 0 && |query| == dim {
      var es := metadata[gameId];
      var cands := Faiss.Candidates(indexes[gameId], query, MaxSimilarContexts, sim);
      forall i | 0 <= i < |rs|
        ensures IsPlayerContextDump(rs[i].contextData)
      {
        assert rs[i].contextData == es[cands[rs[i].rank - 1]].contextData;
      }
    }
    JigsawStack.DumpedContextsRender(rs, r);
  }

  // ------------------------------------------------------ context de-duplication

  /** The id of the context record a generation uses: the existing one, or the next row's. */
  function ContextIdFor(contexts: seq<ContextRow>, game: int, hash: string): nat
  {
    match FindContext(contexts, game, hash)
    case Some(i) => i + 1
    case None => |contexts| + 1
  }

  /** The context table after a generation: a new record only when none matches. */
  function WithContext(contexts: seq<ContextRow>, game: int, hash: string, playerContext: Fields,
                       embedding: Faiss.Vector): seq<ContextRow>
  {
    if FindContext(contexts, game, hash).Some? then contexts
    else contexts + [ContextRow(game, hash, playerContext, embedding)]
  }

  /** The action table after a generation: one new row, pointing at the context record used. */
  function WithAction(actions: seq<ActionRow>, contexts: seq<ContextRow>, game: int, hash: string,
                      response: BossActionResponse): seq<ActionRow>
  {
    actions + [ActionRow(game, ContextIdFor(contexts, game, hash), response, None, None, None, None)]
  }

  /**
    The context, action and cache tables after a generated response was
    stored, given the tables before.
  */
  predicate StoredGeneration(contexts0: seq<ContextRow>, actions0: seq<ActionRow>, cache0: map<string, BossActionResponse>,
                             contexts: seq<ContextRow>, actions: seq<ActionRow>, cache: map<string, BossActionResponse>,
                             game: int, hash: string, player: PlayerContextData, embedding: Faiss.Vector,
                             key: string, response: BossActionResponse)
  {
    && contexts == WithContext(contexts0, game, hash, DumpPlayerContext(player), embedding)
    && actions == WithAction(actions0, contexts0, game, hash, response)
    && cache == cache0[key := response]
  }

  /**
    De-duplication keeps one record per (game, hash): a record is added only
    when none matches, the id used names a record with that game and hash, and
    existing records are never changed.
  */
  lemma DedupSpec(contexts: seq<ContextRow>, game: int, hash: string, playerContext: Fields, embedding: Faiss.Vector)
    requires UniqueContexts(contexts)
    ensures var after := WithContext(contexts, game, hash, playerContext, embedding);
            var id := ContextIdFor(contexts, game, hash);
      && UniqueContexts(after)
      && after[..|contexts|] == contexts
      && (|after| == |contexts| + 1 <==> FindContext(contexts, game, hash).None?)
      && (|after| == |contexts| <==> FindContext(contexts, game, hash).Some?)
      && 1 <= id <= |after| && after[id - 1].game == game && after[id - 1].contextHash == hash
  {
  }

  /** A second generation for the same game and hash reuses the record the first one used. */
  lemma DedupIdempotent(contexts: seq<ContextRow>, game: int, hash: string, p1: Fields, e1: Faiss.Vector,
                        p2: Fields, e2: Faiss.Vector)
    requires UniqueContexts(contexts)
    ensures var once := WithContext(contexts, game, hash, p1, e1);
            && WithContext(once, game, hash, p2, e2) == once
            && ContextIdFor(once, game, hash) == ContextIdFor(contexts, game, hash)
  {
    var once := WithContext(contexts, game, hash, p1, e1);
    DedupSpec(contexts, game, hash, p1, e1);
    var id := ContextIdFor(contexts, game, hash);
    assert once[id - 1].game == game && once[id - 1].contextHash == hash;
    var found := FindContext(once, game, hash);
    assert found.Some?;
    assert found.value == id - 1;
  }

  // --------------------------------------------------------- cache keys and glob

  const CachePrefix := "boss_action:"

  /** `_generate_cache_key`. */
  function CacheKey(gameId: string, contextHash: string, battlePhase: string): (k: string)
    ensures CachePrefix + gameId + ":" <= k
  {
    CachePrefix + gameId + ":" + contextHash + ":" + battlePhase
  }

  /** The pattern `_invalidate_cache_for_game` hands to the cache's key listing. */
  function InvalidationPattern(gameId: string): string
  {
    CachePrefix + gameId + ":*"
  }

  /** Glob matching as the cache's key listing does it: `*` any run, `?` one character. */
  predicate Glob(pattern: string, s: string)
    decreases |pattern| + |s|
  {
    if pattern == [] then s == []
    else if pattern[0] == '*' then Glob(pattern[1..], s) || (s != [] && Glob(pattern, s[1..]))
    else s != [] && (pattern[0] == '?' || pattern[0] == s[0]) && Glob(pattern[1..], s[1..])
  }

  lemma {:induction false} StarMatchesAll(s: string)
    ensures Glob("*", s)
  {
    if s != [] {
      StarMatchesAll(s[1..]);
    }
  }

  /** A pattern ending in `*` matches every string that starts with the pattern's own text. */
  lemma {:induction false} PrefixStarMatches(prefix: string, rest: string)
    ensures Glob(prefix + "*", prefix + rest)
  {
    if prefix == [] {
      assert prefix + "*" == "*" && prefix + rest == rest;
      StarMatchesAll(rest);
    } else {
      var p, s := prefix + "*", prefix + rest;
      assert p[1..] == prefix[1..] + "*";
      assert s[1..] == prefix[1..] + rest;
      PrefixStarMatches(prefix[1..], rest);
      if prefix[0] == '*' {
        assert Glob(p[1..], s[1..]);
        assert Glob(p, s[1..]);
      }
    }
  }

  /** Every key generated for a game matches the invalidation pattern built for that game. */
  lemma CacheKeyMatchesPattern(gameId: string, contextHash: string, battlePhase: string)
    ensures Glob(InvalidationPattern(gameId), CacheKey(gameId, contextHash, battlePhase))
  {
    var prefix := CachePrefix + gameId + ":";
    assert InvalidationPattern(gameId) == prefix + "*";
    assert CacheKey(gameId, contextHash, battlePhase) == prefix + (contextHash + ":" + battlePhase);
    PrefixStarMatches(prefix, contextHash + ":" + battlePhase);
  }

  /**
    The pattern is not anchored at the game id: invalidating game "arena" also
    matches the keys of a game whose id is "arena:2".
  */
  lemma PatternReachesLongerGameIds(contextHash: string, battlePhase: string)
    ensures Glob(InvalidationPattern("arena"), CacheKey("arena:2", contextHash, battlePhase))
  {
    var prefix := CachePrefix + "arena" + ":";
    assert InvalidationPattern("arena") == prefix + "*";
    assert CacheKey("arena:2", contextHash, battlePhase) == prefix + ("2:" + contextHash + ":" + battlePhase);
    PrefixStarMatches(prefix, "2:" + contextHash + ":" + battlePhase);
  }

  /** The cache after `_invalidate_cache_for_game`: every key matching the pattern is deleted. */
  function Invalidated(cache: map<string, BossActionResponse>, gameId: string): map<string, BossActionResponse>
  {
    map k | k in cache && !Glob(InvalidationPattern(gameId), k) :: cache[k]
  }

  /** After invalidation no cached response of the game is left; non-matching keys keep their responses. */
  lemma InvalidationSpec(cache: map<string, BossActionResponse>, gameId: string)
    ensures forall h, phase :: CacheKey(gameId, h, phase) !in Invalidated(cache, gameId)
    ensures forall k :: k in cache && !Glob(InvalidationPattern(gameId), k) ==>
              k in Invalidated(cache, gameId) && Invalidated(cache, gameId)[k] == cache[k]
    ensures forall k :: k in Invalidated(cache, gameId) ==> k in cache
  {
    forall h, phase
      ensures CacheKey(gameId, h, phase) !in Invalidated(cache, gameId)
    {
      CacheKeyMatchesPattern(gameId, h, phase);
    }
  }

  // ------------------------------------------------------------ outcome logging

  /** The action row after an outcome has been recorded on it. */
  function Recorded(a: ActionRow, o: ActionOutcomeData): ActionRow
  {
    a.(outcome := Some(o.outcome), effectivenessScore := Some(o.effectivenessScore),
       damageDealt := Some(o.damageDealt), playerHit := Some(o.playerHit))
  }

  /** The arguments of one `add_context` call. */
  datatype StoreAddition = StoreAddition(
    gameId: string, contextId: int, embedding: Faiss.Vector, contextData: Fields, score: real)

  /**
    The vector-store addition an outcome triggers: only for a known action of
    a known game, an effectiveness of at least 0.3, and a stored context with
    an embedding.
  */
  function StoreAdditionFor(games: seq<GameRow>, contexts: seq<ContextRow>, actions: seq<ActionRow>,
                            o: ActionOutcomeData): (u: Option<StoreAddition>)
    ensures u.Some? ==> o.effectivenessScore >= MinEffectivenessScore
    ensures u.Some? ==> 1 <= o.actionId <= |actions|
    ensures u.Some? ==> |u.value.embedding| > 0 && u.value.score == o.effectivenessScore
  {
    if !(1 <= o.actionId <= |actions|) then None
    else
      var a := actions[o.actionId - 1];
      if !(1 <= a.game <= |games|) || o.effectivenessScore < MinEffectivenessScore then None
      else if !(1 <= a.context <= |contexts|) then None
      else
        var c := contexts[a.context - 1];
        if |c.embedding| == 0 then None
        else Some(StoreAddition(games[a.game - 1].gameId, a.context, c.embedding, c.playerContext, o.effectivenessScore))
  }

  /** The gate in both directions: an outcome of a known action and game reaches the store exactly when it clears it. */
  lemma GateSpec(games: seq<GameRow>, contexts: seq<ContextRow>, actions: seq<ActionRow>, o: ActionOutcomeData)
    requires 1 <= o.actionId <= |actions|
    requires 1 <= actions[o.actionId - 1].game <= |games|
    ensures var a := actions[o.actionId - 1];
            StoreAdditionFor(games, contexts, actions, o).Some? <==>
              && o.effectivenessScore >= MinEffectivenessScore
              && 1 <= a.context <= |contexts|
              && |contexts[a.context - 1].embedding| > 0
    ensures o.effectivenessScore < MinEffectivenessScore ==> StoreAdditionFor(games, contexts, actions, o).None?
  {
  }

  /**
    Outcomes are appended, never merged: two qualifying outcomes for the same
    context leave two entries for it in the game's metadata.
  */
  lemma RepeatedOutcomesAppend(es: seq<Faiss.Entry>, contextId: int, data: Fields, first: real, second: real)
    ensures var twice := Faiss.Appended(Faiss.Appended(es, |es|, contextId, data, first), |es| + 1, contextId, data, second);
            && |twice| == |es| + 2
            && twice[..|es|] == es
            && twice[|es|].contextId == contextId && twice[|es|].effectivenessScore == first
            && twice[|es| + 1].contextId == contextId && twice[|es| + 1].effectivenessScore == second
  {
  }

  // ------------------------------------------------------------- statistics

  /** Effectiveness scores of a game's actions that have one, oldest first. */
  function ScoresOf(actions: seq<ActionRow>, game: int): (s: seq<real>)
    ensures |s| <= |actions|
  {
    if actions == [] then []
    else
      var last := actions[|actions| - 1];
      ScoresOf(actions[..|actions| - 1], game)
      + (if last.game == game && last.effectivenessScore.Some? then [last.effectivenessScore.value] else [])
  }

  /** The game column of the action table. */
  function ActionGames(actions: seq<ActionRow>): seq<int>
  {
    seq(|actions|, i requires 0 <= i < |actions| => actions[i].game)
  }

  /** The game column of the context table. */
  function ContextGames(contexts: seq<ContextRow>): seq<int>
  {
    seq(|contexts|, i requires 0 <= i < |contexts| => contexts[i].game)
  }

  /** A table's `count()` filtered on one game, over the table's game column. */
  function CountGame(column: seq<int>, game: int): (n: nat)
    ensures n <= |column|
  {
    if column == [] then 0
    else CountGame(column[..|column| - 1], game) + (if column[|column| - 1] == game then 1 else 0)
  }

  /** The count is the number of the table's rows that belong to the game. */
  lemma {:induction false} CountGameSpec(column: seq<int>, game: int)
    ensures CountGame(column, game) == |set i | 0 <= i < |column| && column[i] == game|
  {
    if column != [] {
      var n := |column| - 1;
      var init := column[..n];
      CountGameSpec(init, game);
      var before := set i | 0 <= i < |init| && init[i] == game;
      var after := set i | 0 <= i < |column| && column[i] == game;
      Numeric.CountStep(before, after, n, column[n] == game);
    }
  }

  /** There is one score for each of the game's actions that has one. */
  lemma {:induction false} ScoresOfCount(actions: seq<ActionRow>, game: int)
    ensures |ScoresOf(actions, game)| ==
              |set i | 0 <= i < |actions| && actions[i].game == game && actions[i].effectivenessScore.Some?|
  {
    if actions != [] {
      var n := |actions| - 1;
      var init := actions[..n];
      ScoresOfCount(init, game);
      var before := set i | 0 <= i < |init| && init[i].game == game && init[i].effectivenessScore.Some?;
      var after := set i | 0 <= i < |actions| && actions[i].game == game && actions[i].effectivenessScore.Some?;
      Numeric.CountStep(before, after, n, actions[n].game == game && actions[n].effectivenessScore.Some?);
    }
  }

  /** Every score is the effectiveness recorded on one of the game's actions. */
  lemma {:induction false} ScoresOfBelong(actions: seq<ActionRow>, game: int)
    ensures forall j :: 0 <= j < |ScoresOf(actions, game)| ==>
              exists i :: 0 <= i < |actions| && actions[i].game == game && actions[i].effectivenessScore == Some(ScoresOf(actions, game)[j])
  {
    if actions != [] {
      var n := |actions| - 1;
      var init := actions[..n];
      ScoresOfBelong(init, game);
      var s, prior := ScoresOf(actions, game), ScoresOf(init, game);
      forall j | 0 <= j < |s|
        ensures exists i :: 0 <= i < |actions| && actions[i].game == game && actions[i].effectivenessScore == Some(s[j])
      {
        if j < |prior| {
          assert s[j] == prior[j];
          var i :| 0 <= i < n && init[i].game == game && init[i].effectivenessScore == Some(prior[j]);
          assert actions[i] == init[i];
        } else {
          assert actions[n].game == game && actions[n].effectivenessScore == Some(s[j]);
        }
      }
    } else {
      assert ScoresOf(actions, game) == [];
    }
  }

  /** Share of outcomes scoring at least 0.5; 0.0 with no outcomes. */
  function SuccessRate(scores: seq<real>): real
  {
    if scores == [] then 0.0
    else Numeric.CountAtLeast(scores, SuccessThreshold) as real / |scores| as real
  }

  /** The success rate is the share of scores of at least 0.5, a fraction; 0.0 with no scores. */
  lemma SuccessRateSpec(scores: seq<real>)
    ensures 0.0 <= SuccessRate(scores) <= 1.0
    ensures scores == [] ==> SuccessRate(scores) == 0.0
    ensures scores != [] ==>
              SuccessRate(scores) == |set i | 0 <= i < |scores| && scores[i] >= SuccessThreshold| as real / |scores| as real
  {
    if scores != [] {
      Numeric.CountAtLeastSpec(scores, SuccessThreshold);
      Numeric.FractionWithinUnit(Numeric.CountAtLeast(scores, SuccessThreshold), |scores|);
    }
  }

  /** The ten most recent scores (fewer if there are fewer). */
  function Recent(scores: seq<real>): (r: seq<real>)
    ensures |r| <= RecentWindow
    ensures |scores| <= RecentWindow ==> r == scores
  {
    if |scores| <= RecentWindow then scores else scores[|scores| - RecentWindow..]
  }

  datatype GameStats = GameStats(
    gameId: string,
    totalContexts: nat,
    totalActions: nat,
    avgEffectiveness: real,
    successRate: real,
    recentEffectiveness: real,
    faissStats: Faiss.IndexStats,
    contextsInIndex: nat,
    avgContextEffectiveness: real,
    improvementTrend: real)

  /** The statistics computed from a game's recorded scores. */
  function StatsFromScores(gameId: string, totalContexts: nat, totalActions: nat, scores: seq<real>,
                           faissStats: Faiss.IndexStats): GameStats
  {
    var avg := Numeric.Mean(scores);
    var recent := Numeric.Mean(Recent(scores));
    GameStats(gameId, totalContexts, totalActions, avg, SuccessRate(scores), recent, faissStats,
              faissStats.TotalContexts(), faissStats.AvgEffectiveness(), recent - avg)
  }

  /**
    The trend compares the last ten outcomes with all of them: it is zero while
    a game has at most ten outcomes, the success rate is a fraction, and every
    average lies between the lowest and the highest score.
  */
  lemma StatsSpec(gameId: string, totalContexts: nat, totalActions: nat, scores: seq<real>, faissStats: Faiss.IndexStats)
    ensures var st := StatsFromScores(gameId, totalContexts, totalActions, scores, faissStats);
      && 0.0 <= st.successRate <= 1.0
      && st.improvementTrend == st.recentEffectiveness - st.avgEffectiveness
      && (|scores| <= RecentWindow ==> st.improvementTrend == 0.0)
      && (scores == [] ==> st.avgEffectiveness == 0.0 && st.successRate == 0.0 && st.recentEffectiveness == 0.0)
      && (scores != [] ==> Numeric.Min(scores) <= st.avgEffectiveness <= Numeric.Max(scores))
      && (scores != [] ==> Numeric.Min(scores) <= st.recentEffectiveness <= Numeric.Max(scores))
  {
    SuccessRateSpec(scores);
    if scores != [] {
      Numeric.MeanBetweenMinAndMax(scores);
      var recent := Recent(scores);
      RecentWithin(scores);
      Numeric.MeanWithin(recent, Numeric.Min(scores), Numeric.Max(scores));
    }
  }

  lemma RecentWithin(scores: seq<real>)
    requires scores != []
    ensures Recent(scores) != []
    ensures forall i :: 0 <= i < |Recent(scores)| ==> Numeric.Min(scores) <= Recent(scores)[i] <= Numeric.Max(scores)
  {
    var r := Recent(scores);
    forall i | 0 <= i < |r|
      ensures Numeric.Min(scores) <= r[i] <= Numeric.Max(scores)
    {
      assert r[i] in scores;
    }
  }

  // ---------------------------------------------------------------- service

  class AdaptiveBossService {
    const store: Faiss.FaissService
    var games: seq<GameRow>
    var prompts: seq<PromptRow>
    var contexts: seq<ContextRow>
    var actions: seq<ActionRow>
    var cache: map<string, BossActionResponse>

    ghost predicate Valid()
      reads this, store
    {
      && store.Valid() && UniqueGameIds(games) && UniquePromptEngineIds(prompts) && UniqueContexts(contexts)
      && DumpedContexts(contexts) && DumpedEntries(store.metadata)
    }

    constructor (dimension: nat)
      ensures Valid() && fresh(store)
      ensures store.dimension == dimension && store.indexes == map[] && store.metadata == map[]
      ensures games == [] && prompts == [] && contexts == [] && actions == [] && cache == map[]
    {
      store := new Faiss.FaissService(dimension);
      games := [];
      prompts := [];
      contexts := [];
      actions := [];
      cache := map[];
    }

    /**
      `register_game`: a known game id is rejected without change; a failed
      prompt creation changes nothing; rows the tables refuse (a value over
      its column's length, a missing or already used prompt-engine id) fail
      the commit, which is rolled back with the database's message;
      otherwise the game and its active prompt are recorded and the game's
      index is created.
    */
    method RegisterGame(gameId: string, name: string, description: Option<string>, vocabulary: Fields,
                        createdPrompt: Result<Option<string>, string>, integrityError: string)
      returns (response: RegistrationResponse)
      requires Valid()
      modifies this, store
      ensures Valid()
      ensures old(FindGame(games, gameId)).Some? ==>
                && response == RegistrationResponse(false, "Game already registered", gameId, None)
                && unchanged(this) && unchanged(store)
      ensures old(FindGame(games, gameId)).None? && createdPrompt.Failure? ==>
                && response == RegistrationResponse(false, "Failed to register game: " + createdPrompt.error, gameId, None)
                && unchanged(this) && unchanged(store)
      ensures old(FindGame(games, gameId)).None? && createdPrompt.Success? &&
              !old(CommitAccepts(prompts, gameId, name, createdPrompt.value)) ==>
                && response == RegistrationResponse(false, "Failed to register game: " + integrityError, gameId, None)
                && unchanged(this) && unchanged(store)
      ensures old(FindGame(games, gameId)).None? && createdPrompt.Success? &&
              old(CommitAccepts(prompts, gameId, name, createdPrompt.value)) ==>
                && response == RegistrationResponse(true, "Game registered successfully", gameId, createdPrompt.value)
                && games == old(games) + [GameRow(gameId, name, description, vocabulary)]
                && prompts == old(prompts) + [PromptRow(|old(games)| + 1, createdPrompt.value.value,
                                                        name + "_boss_behavior", "Boss behavior prompt for " + name, true)]
                && contexts == old(contexts) && actions == old(actions) && cache == old(cache)
                && store.indexes == (if old(gameId in store.indexes) then old(store.indexes) else old(store.indexes)[gameId := []])
                && store.metadata == (if old(gameId in store.indexes) then old(store.metadata) else old(store.metadata)[gameId := []])
    {
      if FindGame(games, gameId).Some? {
        return RegistrationResponse(false, "Game already registered", gameId, None);
      }
      if createdPrompt.Failure? {
        return RegistrationResponse(false, "Failed to register game: " + createdPrompt.error, gameId, None);
      }
      if !CommitAccepts(prompts, gameId, name, createdPrompt.value) {
        return RegistrationResponse(false, "Failed to register game: " + integrityError, gameId, None);
      }
      var promptEngineId := createdPrompt.value.value;
      games := games + [GameRow(gameId, name, description, vocabulary)];
      var gameRowId := |games|;
      prompts := prompts + [PromptRow(gameRowId, promptEngineId, name + "_boss_behavior",
                                      "Boss behavior prompt for " + name, true)];
      ghost var before := store.metadata;
      var _ := store.GetOrCreateIndex(gameId);
      UpdateKeepsDumps(before, gameId, []);
      response := RegistrationResponse(true, "Game registered successfully", gameId, Some(promptEngineId));
    }

    /** The contexts the store's search returns for a generation now. */
    function Similar(gameId: string, query: Faiss.Vector, sim: Faiss.Similarity): seq<Faiss.SearchResult>
      reads this, store
      requires Valid()
    {
      SimilarIn(store.indexes, store.metadata, store.dimension, gameId, query, sim)
    }

    /**
      `generate_boss_action`: an unknown game or a game without an active
      prompt fails; a cached response is returned as is and nothing is sent;
      otherwise the prompt inputs built from the similar contexts are sent,
      the engine's reply is parsed, and on success the context record is
      reused or added, the action is recorded and the response cached.
      A failure leaves every table and the cache as they were.
    */
    method GenerateBossAction(request: BossActionRequest, contextHash: string, embedding: Faiss.Vector,
                              sim: Faiss.Similarity, reply: JigsawStack.HttpReply, r: JigsawStack.Renderer)
      returns (result: Result<BossActionResponse, string>, sent: Option<Fields>)
      requires Valid()
      modifies this
      ensures Valid()
      ensures result.Failure? ==> unchanged(this)
      ensures old(Target(games, prompts, request.gameId)).Failure? ==>
                result == Failure(old(Target(games, prompts, request.gameId)).error) && sent.None?
      ensures var key := CacheKey(request.gameId, contextHash, request.battlePhase);
              old(Target(games, prompts, request.gameId)).Success? && key in old(cache) ==>
                result == Success(old(cache)[key]) && sent.None? && unchanged(this)
      ensures var key := CacheKey(request.gameId, contextHash, request.battlePhase);
              old(Target(games, prompts, request.gameId)).Success? && key !in old(cache) ==>
                && result == JigsawStack.ReplyAction(reply)
                && JigsawStack.SimilarContextsText(old(Similar(request.gameId, embedding, sim)), r).Some?
                && sent == Some(PromptFor(request, old(Similar(request.gameId, embedding, sim)), r))
      ensures var key := CacheKey(request.gameId, contextHash, request.battlePhase);
              result.Success? && key !in old(cache) ==>
                && StoredGeneration(old(contexts), old(actions), old(cache), contexts, actions, cache,
                                    old(Target(games, prompts, request.gameId)).value, contextHash,
                                    request.playerContext, embedding, key, result.value)
                && games == old(games) && prompts == old(prompts)
    {
      var target := Target(games, prompts, request.gameId);
      if target.Failure? {
        return Failure(target.error), None;
      }
      result, sent := GenerateForGame(request, target.value, contextHash, embedding, sim, reply, r);
    }

    /** `generate_boss_action` once the game and its prompt are found: the cache first, then a fresh generation. */
    method GenerateForGame(request: BossActionRequest, game: int, contextHash: string, embedding: Faiss.Vector,
                           sim: Faiss.Similarity, reply: JigsawStack.HttpReply, r: JigsawStack.Renderer)
      returns (result: Result<BossActionResponse, string>, sent: Option<Fields>)
      requires Valid()
      modifies this
      ensures Valid()
      ensures result.Failure? ==> unchanged(this)
      ensures var key := CacheKey(request.gameId, contextHash, request.battlePhase);
              key in old(cache) ==> result == Success(old(cache)[key]) && sent.None? && unchanged(this)
      ensures var key := CacheKey(request.gameId, contextHash, request.battlePhase);
              key !in old(cache) ==>
                && result == JigsawStack.ReplyAction(reply)
                && JigsawStack.SimilarContextsText(old(Similar(request.gameId, embedding, sim)), r).Some?
                && sent == Some(PromptFor(request, old(Similar(request.gameId, embedding, sim)), r))
      ensures var key := CacheKey(request.gameId, contextHash, request.battlePhase);
              result.Success? && key !in old(cache) ==>
                && StoredGeneration(old(contexts), old(actions), old(cache), contexts, actions, cache,
                                    game, contextHash, request.playerContext, embedding, key, result.value)
                && games == old(games) && prompts == old(prompts)
    {
      var key := CacheKey(request.gameId, contextHash, request.battlePhase);
      if key in cache {
        return Success(cache[key]), None;
      }
      var prompt;
      result, prompt := GenerateUncached(request, game, key, contextHash, embedding, sim, reply, r);
      sent := Some(prompt);
    }

    /**
      The cache-miss path of `generate_boss_action`: search the game's index
      for five contexts of effectiveness at least 0.3, send the prompt inputs
      (which always render, every stored context being a dumped player
      context), and on success store the context, the action and the cached
      response.
    */
    method GenerateUncached(request: BossActionRequest, game: int, key: string, contextHash: string,
                            embedding: Faiss.Vector, sim: Faiss.Similarity,
                            reply: JigsawStack.HttpReply, r: JigsawStack.Renderer)
      returns (result: Result<BossActionResponse, string>, sent: Fields)
      requires Valid()
      modifies this
      ensures Valid()
      ensures result == JigsawStack.ReplyAction(reply)
      ensures JigsawStack.SimilarContextsText(old(Similar(request.gameId, embedding, sim)), r).Some?
      ensures sent == PromptFor(request, old(Similar(request.gameId, embedding, sim)), r)
      ensures result.Failure? ==> unchanged(this)
      ensures result.Success? ==>
                && StoredGeneration(old(contexts), old(actions), old(cache), contexts, actions, cache,
                                    game, contextHash, request.playerContext, embedding, key, result.value)
                && games == old(games) && prompts == old(prompts)
    {
      var similar := store.SearchSimilarContexts(request.gameId, embedding, MaxSimilarContexts,
                                                 MinEffectivenessScore, sim);
      assert similar == Similar(request.gameId, embedding, sim);
      SimilarRender(store.indexes, store.metadata, store.dimension, request.gameId, embedding, sim, r);
      var environment := GetOr(request.environmentFactors, "environment", VStr("standard arena"));
      var generated, prompt := JigsawStack.GenerateBossAction(request.playerContext, similar,
                                                              request.bossHealthPercentage, request.battlePhase,
                                                              environment, reply, r);
      sent := prompt.value;
      if generated.Failure? {
        return generated, sent;
      }
      Record(game, contextHash, request.playerContext, embedding, key, generated.value);
      result := generated;
    }

    /** Stores a generated action: reuses or adds the context record, records the action, caches the response. */
    method Record(game: int, contextHash: string, player: PlayerContextData, embedding: Faiss.Vector,
                  key: string, response: BossActionResponse)
      requires Valid()
      modifies this
      ensures Valid()
      ensures StoredGeneration(old(contexts), old(actions), old(cache), contexts, actions, cache,
                               game, contextHash, player, embedding, key, response)
      ensures games == old(games) && prompts == old(prompts)
    {
      var playerContext := DumpPlayerContext(player);
      DedupSpec(contexts, game, contextHash, playerContext, embedding);
      WithContextKeepsDumps(contexts, game, contextHash, player, embedding);
      var before := contexts;
      contexts := WithContext(contexts, game, contextHash, playerContext, embedding);
      actions := WithAction(actions, before, game, contextHash, response);
      cache := cache[key := response];
    }

    /**
      `log_action_outcome`: an unknown action or game fails without change;
      otherwise the outcome is recorded on the action, an effective outcome
      with a stored embedding is added to the game's index, and the game's
      cached responses are invalidated. An addition the index refuses fails
      and rolls the record back.
    */
    method LogActionOutcome(o: ActionOutcomeData) returns (error: Option<string>)
      requires Valid()
      modifies this, store
      ensures Valid()
      ensures games == old(games) && prompts == old(prompts) && contexts == old(contexts)
      ensures !(1 <= o.actionId <= old(|actions|)) ==>
                error == Some("Action " + Text.IntToString(o.actionId) + " not found") && unchanged(this) && unchanged(store)
      ensures 1 <= o.actionId <= old(|actions|) && !(1 <= old(actions[o.actionId - 1].game) <= |games|) ==>
                error == Some("Game not found") && unchanged(this) && unchanged(store)
      ensures && 1 <= o.actionId <= old(|actions|) && 1 <= old(actions[o.actionId - 1].game) <= |games|
              && (|| old(StoreAdditionFor(games, contexts, actions, o)).None?
                  || |old(StoreAdditionFor(games, contexts, actions, o)).value.embedding| == store.dimension) ==>
                error.None?
      ensures old(StoreAdditionFor(games, contexts, actions, o)).None? ==>
                store.indexes == old(store.indexes) && store.metadata == old(store.metadata)
      ensures old(StoreAdditionFor(games, contexts, actions, o)).Some? ==>
                var u := old(StoreAdditionFor(games, contexts, actions, o)).value;
                var vs := if old(u.gameId in store.indexes) then old(store.indexes[u.gameId]) else [];
                var es := if old(u.gameId in store.metadata) then old(store.metadata[u.gameId]) else [];
                && (|u.embedding| == store.dimension ==>
                      && store.indexes == old(store.indexes)[u.gameId := vs + [u.embedding]]
                      && store.metadata == old(store.metadata)[u.gameId := Faiss.Appended(es, |vs|, u.contextId, u.contextData, u.score)])
                && (|u.embedding| != store.dimension ==>
                      && error == Some("embedding dimension does not match the index")
                      && store.indexes == old(store.indexes)[u.gameId := vs]
                      && store.metadata == old(store.metadata)[u.gameId := es])
      ensures error.Some? ==> actions == old(actions) && cache == old(cache)
      ensures error.None? ==>
                && 1 <= o.actionId <= |actions| == old(|actions|)
                && 1 <= old(actions[o.actionId - 1].game) <= |games|
                && actions == old(actions)[o.actionId - 1 := Recorded(old(actions[o.actionId - 1]), o)]
                && cache == Invalidated(old(cache), games[old(actions[o.actionId - 1].game) - 1].gameId)
    {
      if !(1 <= o.actionId <= |actions|) {
        return Some("Action " + Text.IntToString(o.actionId) + " not found");
      }
      var action := actions[o.actionId - 1];
      if !(1 <= action.game <= |games|) {
        return Some("Game not found");
      }
      var game := games[action.game - 1];
      var addition := StoreAdditionFor(games, contexts, actions, o);
      if addition.Some? {
        assert IsPlayerContextDump(contexts[action.context - 1].playerContext);
        var ok := AddToStore(addition.value);
        if !ok {
          return Some("embedding dimension does not match the index");
        }
      }
      RecordOutcome(o, game.gameId);
      error := None;
    }

    /** Records the outcome on its action and drops the game's cached responses. */
    method RecordOutcome(o: ActionOutcomeData, gameId: string)
      requires Valid() && 1 <= o.actionId <= |actions|
      modifies this
      ensures Valid()
      ensures actions == old(actions)[o.actionId - 1 := Recorded(old(actions[o.actionId - 1]), o)]
      ensures cache == Invalidated(old(cache), gameId)
      ensures games == old(games) && prompts == old(prompts) && contexts == old(contexts)
    {
      actions := actions[o.actionId - 1 := Recorded(actions[o.actionId - 1], o)];
      cache := Invalidated(cache, gameId);
    }

    /**
      The `add_context` call of `log_action_outcome`: the store appends the
      context, or refuses an embedding of another dimension after creating
      the game's index; the tables are not touched.
    */
    method AddToStore(u: StoreAddition) returns (ok: bool)
      requires Valid() && IsPlayerContextDump(u.contextData)
      modifies store
      ensures Valid()
      ensures ok <==> |u.embedding| == store.dimension
      ensures var vs := if old(u.gameId in store.indexes) then old(store.indexes[u.gameId]) else [];
              var es := if old(u.gameId in store.metadata) then old(store.metadata[u.gameId]) else [];
              && store.indexes == old(store.indexes)[u.gameId := if ok then vs + [u.embedding] else vs]
              && store.metadata == old(store.metadata)[u.gameId := if ok then Faiss.Appended(es, |vs|, u.contextId, u.contextData, u.score) else es]
    {
      ghost var before := store.metadata;
      ghost var es := if u.gameId in before then before[u.gameId] else [];
      ok := store.AddContext(u.gameId, u.contextId, u.embedding, u.contextData, u.score);
      AddKeepsDumps(before, u.gameId, es, u.contextId, u.contextData, u.score, store.metadata[u.gameId]);
    }

    /** `get_game_stats`; an unknown game fails. */
    function GetGameStats(gameId: string): (r: Result<GameStats, string>)
      reads this, store
      requires Valid()
      ensures FindGame(games, gameId).None? <==> r.Failure?
      ensures r.Success? ==> r.value.gameId == gameId && 0.0 <= r.value.successRate <= 1.0
      ensures r.Success? ==> r.value.faissStats == store.GetIndexStats(gameId)
      ensures r.Success? ==> r.value.contextsInIndex == (if gameId in store.indexes then |store.indexes[gameId]| else 0)
      ensures r.Success? ==>
                var g := FindGame(games, gameId).value + 1;
                && r.value.totalContexts == |set i | 0 <= i < |contexts| && contexts[i].game == g|
                && r.value.totalActions == |set i | 0 <= i < |actions| && actions[i].game == g|
    {
      match FindGame(games, gameId)
      case None => Failure("Game " + gameId + " not found")
      case Some(i) =>
        var scores := ScoresOf(actions, i + 1);
        var totalContexts := CountGame(ContextGames(contexts), i + 1);
        var totalActions := CountGame(ActionGames(actions), i + 1);
        CountGameSpec(ContextGames(contexts), i + 1);
        CountGameSpec(ActionGames(actions), i + 1);
        assert (set j | 0 <= j < |ContextGames(contexts)| && ContextGames(contexts)[j] == i + 1)
            == (set j | 0 <= j < |contexts| && contexts[j].game == i + 1);
        assert (set j | 0 <= j < |ActionGames(actions)| && ActionGames(actions)[j] == i + 1)
            == (set j | 0 <= j < |actions| && actions[j].game == i + 1);
        StatsSpec(gameId, totalContexts, totalActions, scores, store.GetIndexStats(gameId));
        Success(StatsFromScores(gameId, totalContexts, totalActions, scores,
                                store.GetIndexStats(gameId)))
    }
  }
}
