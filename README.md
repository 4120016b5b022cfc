# Adaptive boss service: a verified model of its core

The adaptive-learn backend picks boss actions for games and learns from how well those actions worked. This project models the bookkeeping around its external services and proves properties of it. The external services are the embedding model, the prompt engine, Postgres, Redis and the websocket manager.

- **Per-game vector store** (`faiss_service.dfy`, module `Faiss`).
  - A class holds, for each game, an index and a parallel metadata list. The index is the stored embeddings in insertion order.
  - Its invariant: the list has one entry per vector, and entry i records index position i.
  - Appending a context, searching with an effectiveness filter, updating a score in place, rebuilding without low-scoring entries, and the index statistics all keep that invariant.
  - Search takes the `min(k, n)` most similar positions (module `Ranking`), then filters them by effectiveness.
- **Prompt-engine client** (`jigsawstack_service.dfy`, module `JigsawStack`).
  - It renders a player context and the similar past situations as prompt text.
  - It parses the engine's loose reply into a boss action, with defaults, an intensity clamp and a fixed fallback.
  - It maps the HTTP reply to an action or an error.
- **Orchestration** (`adaptive_boss_service.dfy`, module `AdaptiveBoss`).
  - A class holds the database tables (games, prompts, contexts, actions), the response cache and the vector store.
  - Its invariant: game ids and prompt-engine ids are unique, (game, hash) names at most one context record, and every stored player context, in the tables and in the vector store, is the dump of a player context. The last part is why a cache miss always reaches the prompt engine.
  - Registration rejects a duplicate game id, and a prompt-engine id the prompt table refuses.
  - Action generation uses a cache keyed by `boss_action:<game>:<hash>:<phase>`. It reuses an existing context record that has the same game and hash.
  - Outcome logging feeds effective outcomes (effectiveness ≥ 0.3) to the vector store and invalidates the game's cache through a glob.
  - Game statistics give the success rate, the recent window and the trend.
- **Realtime service** (`realtime_service.dfy`, module `Realtime`).
  - A class holds the table of requests in flight, keyed by a server-generated id, and the request counters.
  - Further parts: the dispatch of incoming message types, completion and the periodic sweep, the learning rate, and the learning-update trend.
- **Records and validators** (`models.dfy`, module `Models`).
  - The pydantic field bounds become predicates and error lists.
  - The two string enums get wire codecs with round trips.
- **Shared helpers.**
  - `json.dfy`: loose JSON values, and dictionaries as association lists in insertion order.
  - `text.dfy`: join, `str` of integers, the decimal subset of `float(s)`.
  - `numeric.dfy`: mean, max, min and counted fractions over exact reals.
  - `wrappers.dfy`: `Option` and `Result`.

**Modelling choices**
- **Data types.** Floats are exact reals. Database tables are sequences: a row's id is its position plus one. The Redis cache is a map from key to response.
- **External inputs become parameters.** These are:
  - the similarity function (standing for the cosine similarity of normalised embeddings)
  - the embedding and context hash of a request
  - the prompt engine's HTTP reply
  - the id of a created prompt, and the database's message when the prompt table refuses it
  - the clock, the server's request id and the session's game
  - the realtime timeout
  - the renderer for `{x:.1%}`, `{x:.Nf}` and `str(v)`
- **Timeouts.** `realtime_service.py` reads `settings.realtime_action_timeout` and `settings.websocket_timeout`. `backend/app/config.py:7-36` defines neither, so the timeout is a parameter of the sweep.
- **pydantic version.** `config.py` imports `BaseSettings` from pydantic (v1 style), but the services call `model_dump` (v2). The model follows v2's rule that a `str` field accepts only strings. A reply field of the wrong type therefore fails validation, and the parser falls back.
- **Search.**
  - The search does not over-fetch. It asks the index for `min(k, ntotal)` candidates and then filters them by effectiveness (`faiss_service.py:94-104`), so fewer than k results can come back while more entries qualify. `Faiss.NoOverFetch` exhibits this.
  - The flat index does not promise an order between equal similarities. The model breaks such ties by lower position.
- **Database.** The model follows Postgres, the database `setup_db.py` creates. Postgres enforces the declared `String(n)` column lengths, so a registration whose values exceed them fails its commit.

## Model

| member | source | states |
|---|---|---|
| Faiss.AppendKeepsConsistent | backend/app/services/faiss_service.py:56-65 | appending a vector of the index's dimension with an entry whose position is the old size keeps the invariant; the new entry's position is the new size minus one |
| Faiss.FirstMatch | backend/app/services/faiss_service.py:129-131 | the position found holds the context id and no earlier entry does; none is found exactly when no entry has the id |
| Faiss.ScoreUpdateChangesOnlyFirstMatch | backend/app/services/faiss_service.py:124-136 | a score update keeps the length and the invariant; it sets the score of the first entry for the context and leaves every other entry, and every entry of an unknown context, unchanged |
| Faiss.UpdateAfterDuplicateAddTouchesOlderEntry | backend/app/services/faiss_service.py:129-134 | when a context was added twice, the update changes the older entry's score and the newer entry keeps its own |
| Faiss.BelowPositions | backend/app/services/faiss_service.py:148-151 | a position is listed exactly when its score is under the threshold |
| Faiss.KeptPositions | backend/app/services/faiss_service.py:164-165 | a position is kept exactly when its score reaches the threshold |
| Faiss.KeptAscending | backend/app/services/faiss_service.py:164-173 | kept positions are listed in strictly ascending order, as the rebuild loop visits them |
| Faiss.KeptPlusBelow | backend/app/services/faiss_service.py:148-173 | every position is either kept or removed: the two counts add up to the number of entries |
| Faiss.RebuildStep | backend/app/services/faiss_service.py:164-173 | one rebuild iteration appends the vector and a renumbered entry exactly when position i is kept |
| Faiss.PruneSpec | backend/app/services/faiss_service.py:148-177 | the rebuilt index is consistent; every entry in it reaches the threshold; every entry that reaches it survives with its own vector; the size is the old size minus the number removed |
| Faiss.PruneConsistent | backend/app/services/faiss_service.py:164-177 | rebuilding keeps the invariant: one entry per vector, each of the index's dimension, positions renumbered 0..n-1 |
| Faiss.PruneKeeps | backend/app/services/faiss_service.py:164-173 | a position reaching the threshold survives at the slot returned, with the same data, its position renumbered, and the same vector |
| Faiss.PruneKeepsOrder | backend/app/services/faiss_service.py:164-173 | surviving entries keep their original relative order |
| Faiss.PruneNothingIsIdentity | backend/app/services/faiss_service.py:153-154 | with nothing under the threshold the rebuilt metadata equals the old metadata |
| Faiss.PruneNothingVectors | backend/app/services/faiss_service.py:153-154 | with nothing under the threshold the rebuilt index equals the old index |
| Faiss.Survivors | backend/app/services/faiss_service.py:96-112 | the filtered candidates: at most n results, all reaching the effectiveness bound, with 1-based strictly increasing ranks, each the entry at its candidate position |
| Faiss.SurvivorsStep | backend/app/services/faiss_service.py:97-112 | one loop iteration appends candidate n exactly when its score reaches the bound |
| Faiss.SurvivorsComplete | backend/app/services/faiss_service.py:104-112 | every candidate that reaches the bound is among the results |
| Faiss.SearchSpec | backend/app/services/faiss_service.py:80-112 | an empty index gives no results; at most min(k, n) results; each reaches the bound; ranks are 1-based and strictly increasing; similarity never increases down the list and is the query's similarity to the candidate's vector |
| Faiss.SearchComplete | backend/app/services/faiss_service.py:94-112 | each of the min(k, n) candidates that reaches the bound is returned with its similarity and rank |
| Faiss.NoOverFetch | backend/app/services/faiss_service.py:94-104 | with k = 1 and the most similar entry under the bound the result is empty, although another entry qualifies |
| Faiss.StatsOf | backend/app/services/faiss_service.py:196-207 | empty metadata gives the short form; otherwise the total is the index size and min ≤ avg ≤ max |
| Faiss.ReplaceKeepsAllConsistent | backend/app/services/faiss_service.py:176-177 | replacing one game's index and metadata by a consistent pair keeps every game consistent |
| Faiss.FaissService.constructor | backend/app/services/faiss_service.py:18-23 | the store starts with no indexes and no metadata and keeps the configured dimension |
| Faiss.FaissService.GetOrCreateIndex | backend/app/services/faiss_service.py:25-43 | a known game's index and metadata are returned untouched; a new game gets an empty index and empty metadata |
| Faiss.FaissService.AddContext | backend/app/services/faiss_service.py:45-74 | the index is created if needed; an embedding of the index's dimension is appended with one metadata entry at position old size; any other embedding is refused and leaves the (possibly just created) index and metadata as they were; the invariant holds |
| Faiss.FaissService.SearchSimilarContexts | backend/app/services/faiss_service.py:76-119 | an unknown game gives []; otherwise the result is the search of that game's index and metadata described by SearchSpec |
| Faiss.FaissService.UpdateEffectivenessScore | backend/app/services/faiss_service.py:121-139 | the index is unchanged; a known game's metadata becomes the score update of its first matching entry; an unknown game changes nothing; the invariant holds |
| Faiss.FaissService.RemoveIneffectiveContexts | backend/app/services/faiss_service.py:141-185 | an unknown game or nothing under the threshold changes nothing; otherwise the game's index and metadata become the rebuilt pair of PruneSpec; the invariant holds |
| Faiss.FaissService.GetIndexStats | backend/app/services/faiss_service.py:187-211 | an unknown or empty game gives the short form (0 contexts, 0.0 average); otherwise the total equals the index size and min ≤ avg ≤ max |
| Faiss.IneffectivePositions | backend/app/services/faiss_service.py:147-151 | the loop lists exactly the positions whose score is under the threshold, ascending |
| Faiss.Rebuild | backend/app/services/faiss_service.py:156-177 | the loop builds exactly the kept vectors and the kept entries renumbered 0..n-1 |
| Ranking.InsertKeepsOrder | backend/app/services/faiss_service.py:94 | inserting a new position into a list in result order keeps it in result order |
| Ranking.RankPrefixOrdered | backend/app/services/faiss_service.py:94 | the positions of the index, listed by descending similarity with ties by lower position, are in result order |
| Ranking.TopK | backend/app/services/faiss_service.py:94 | the search returns min(k, n) candidate positions, all within the index |
| Ranking.TopKSpec | backend/app/services/faiss_service.py:94 | the candidates are in result order and distinct, and no position left out is more similar than a candidate taken |
| JigsawStack.Display | backend/app/services/jigsawstack_service.py:208 | a string value is rendered as itself |
| JigsawStack.PercentOf | backend/app/services/jigsawstack_service.py:223-225 | a percentage renders for numbers and booleans only; anything else raises |
| JigsawStack.PlayerContextHead | backend/app/services/jigsawstack_service.py:193-204 | ten fixed segments describe a player |
| JigsawStack.AdditionalParts | backend/app/services/jigsawstack_service.py:206-208 | one "key: value" segment per additional-context item, in the dictionary's order |
| JigsawStack.PlayerContextPartsSpec | backend/app/services/jigsawstack_service.py:193-210 | ten fixed segments, from "Frequent actions" to "Equipment level", then one per additional-context item; the text starts with "Frequent actions: " |
| JigsawStack.FormatPlayerContext | backend/app/services/jigsawstack_service.py:191-210 | the loop's text is the segments joined with the vertical-bar separator |
| JigsawStack.SummaryStartsWithNumber | backend/app/services/jigsawstack_service.py:223 | each situation summary opens with "Situation i (" |
| JigsawStack.Situations | backend/app/services/jigsawstack_service.py:218 | one summary per situation taken |
| JigsawStack.AllPresent | backend/app/services/jigsawstack_service.py:217-228 | the summaries are collected exactly when every one renders |
| JigsawStack.SimilarContextsTextSpec | backend/app/services/jigsawstack_service.py:212-230 | no situations give "No similar past situations found."; otherwise at most three summaries, numbered from 1, joined with the vertical-bar separator |
| JigsawStack.PartsNumbered | backend/app/services/jigsawstack_service.py:218-228 | the i-th collected summary opens with number i + 1 |
| JigsawStack.DumpedContextsRender | backend/app/services/jigsawstack_service.py:219-226 | situations whose data is the dump of some player context always render |
| JigsawStack.SituationsRender | backend/app/services/jigsawstack_service.py:218-230 | when each of the first three summaries renders, so does the text |
| JigsawStack.DumpedContextRenders | backend/app/services/jigsawstack_service.py:221-226 | a situation whose data is a dumped player context renders |
| JigsawStack.ReadFieldsRender | backend/app/services/jigsawstack_service.py:224-225 | a situation with numeric dodge rate and health renders |
| JigsawStack.MissingFieldsUseDefaults | backend/app/services/jigsawstack_service.py:219-226 | missing player fields read as 0 dodge rate, 1 health and "normal" difficulty |
| JigsawStack.FormatSimilarContexts | backend/app/services/jigsawstack_service.py:212-230 | the loop's text is the formatted similar-situations text, or a failure where a value cannot be rendered |
| JigsawStack.Fallback | backend/app/services/jigsawstack_service.py:282-287 | the fallback ("basic attack", "attack", 0.5, "Default action due to parsing error") is a valid response |
| JigsawStack.ToFloat | backend/app/services/jigsawstack_service.py:238 | `float(v)`: numbers convert, booleans convert to 1.0/0.0, strings are parsed as decimals, null, lists and objects fail |
| JigsawStack.Clamp | backend/app/services/jigsawstack_service.py:241 | the result is in [0, 1], equals x inside it, and is 0 below and 1 above |
| JigsawStack.StringField | backend/app/services/jigsawstack_service.py:236-237 | a required string field accepts exactly strings |
| JigsawStack.OptionalString | backend/app/services/jigsawstack_service.py:244-252 | an optional string field: null is unset, a string is kept, anything else is rejected |
| JigsawStack.OptionalFloat | backend/app/services/jigsawstack_service.py:255-262 | null stays unset; anything else is converted with `float`, and fails exactly when the conversion fails |
| JigsawStack.Strings | backend/app/services/jigsawstack_service.py:248-249 | a list is accepted exactly when all its items are strings, and keeps them in order |
| JigsawStack.Effects | backend/app/services/jigsawstack_service.py:272-273 | a non-list becomes the empty list; a list must hold strings only |
| JigsawStack.EffectsOfStringList | backend/app/services/jigsawstack_service.py:272-273 | a list of strings reads back as itself |
| JigsawStack.Assemble | backend/app/services/jigsawstack_service.py:264-277 | whatever the response built, it satisfies the response's field constraints |
| JigsawStack.TryParse | backend/app/services/jigsawstack_service.py:234-277 | a parsed response is valid |
| JigsawStack.ParseBossActionResponse | backend/app/services/jigsawstack_service.py:232-287 | total and always valid: a non-object or a failed conversion gives the fallback, otherwise the parsed response |
| JigsawStack.IntensityIsClamped | backend/app/services/jigsawstack_service.py:238-241 | the parsed intensity is the reply's intensity clamped into [0, 1] |
| JigsawStack.MissingCoreFieldsDefault | backend/app/services/jigsawstack_service.py:236-238 | a reply without an action, type or intensity gets "basic attack", "attack", 0.5 |
| JigsawStack.NonListEffectsAreEmpty | backend/app/services/jigsawstack_service.py:272-273 | non-list effects read as empty lists |
| JigsawStack.AbsentOptionalNumbers | backend/app/services/jigsawstack_service.py:244-262 | an absent damage multiplier is 1.0; absent duration, cooldown and success probability stay unset |
| JigsawStack.UnreadableIntensityFallsBack | backend/app/services/jigsawstack_service.py:279-287 | an intensity `float` cannot read leads to the fixed fallback with its reasoning |
| JigsawStack.IntensityTextFallsBack | backend/app/services/jigsawstack_service.py:238 | the reply `{"intensity": "high"}` gives the fallback |
| JigsawStack.OptionalStringRoundTrip | backend/app/services/jigsawstack_service.py:244-252 | an optional string written out is read back unchanged |
| JigsawStack.OptionalNumberRoundTrip | backend/app/services/jigsawstack_service.py:255-262 | an optional number written out is read back unchanged |
| JigsawStack.AssembleWritten | backend/app/services/jigsawstack_service.py:264-277 | the values of a valid response, written out, assemble back into it |
| JigsawStack.ResponseFields | backend/app/services/jigsawstack_service.py:102-115 | the reply shape the engine is asked to return has distinct keys |
| JigsawStack.WrittenFieldsReadBack | backend/app/services/jigsawstack_service.py:236-252 | each of the twelve lookups finds the value written for it, so no default applies |
| JigsawStack.ParseOfWrittenResponse | backend/app/services/jigsawstack_service.py:232-277 | a valid response written in the reply shape parses back to itself |
| JigsawStack.Truncate | backend/app/services/jigsawstack_service.py:158 | `int(x)` truncates toward zero |
| JigsawStack.BossHealthPercentInRange | backend/app/services/jigsawstack_service.py:158 | a boss health in [0, 1] is sent as the decimal text of a whole percentage in 0..100 |
| JigsawStack.PromptInputs | backend/app/services/jigsawstack_service.py:155-161 | five input values with distinct keys |
| JigsawStack.ReplyAction | backend/app/services/jigsawstack_service.py:174-185 | a non-200 status fails with "Failed to generate boss action: " and the text; success exactly for a 200 JSON object, and the action is valid |
| JigsawStack.ReplyWithoutResult | backend/app/services/jigsawstack_service.py:174-179 | a 200 reply without "result" gives the default action without fallback reasoning |
| JigsawStack.GenerateBossAction | backend/app/services/jigsawstack_service.py:143-189 | the inputs sent are the formatted texts, the health percentage, the phase and the environment; the result is the reply's action; a formatting failure fails before sending |
| AdaptiveBoss.FindGame | backend/app/services/adaptive_boss_service.py:40 | the first row with the game id; none exactly when no row has it |
| AdaptiveBoss.ActivePrompt | backend/app/services/adaptive_boss_service.py:106-109 | an active prompt of the game; none exactly when the game has no active prompt |
| AdaptiveBoss.Target | backend/app/services/adaptive_boss_service.py:101-112 | "Game g not found" or "No active prompt found for game g"; otherwise the row id of the first row for g, which has an active prompt |
| AdaptiveBoss.FindContext | backend/app/services/adaptive_boss_service.py:148-151 | a context record with the game and hash; none exactly when no record has both |
| AdaptiveBoss.DedupSpec | backend/app/services/adaptive_boss_service.py:147-165 | a record is added exactly when none matches; old records are unchanged; (game, hash) stays unique; the id used names a record with that game and hash |
| AdaptiveBoss.DedupIdempotent | backend/app/services/adaptive_boss_service.py:147-165 | a second generation with the same game and hash adds nothing and reuses the same id |
| AdaptiveBoss.CacheKey | backend/app/services/adaptive_boss_service.py:319-322 | the key starts with "boss_action:" + game id + ":" |
| AdaptiveBoss.StarMatchesAll | backend/app/services/adaptive_boss_service.py:350 | the glob `*` matches every key |
| AdaptiveBoss.PrefixStarMatches | backend/app/services/adaptive_boss_service.py:350 | a pattern ending in `*` matches every key with the pattern's text as prefix |
| AdaptiveBoss.CacheKeyMatchesPattern | backend/app/services/adaptive_boss_service.py:319-351 | every key generated for a game matches the invalidation pattern built for it |
| AdaptiveBoss.PatternReachesLongerGameIds | backend/app/services/adaptive_boss_service.py:350 | the pattern for game "arena" also matches keys of game "arena:2" |
| AdaptiveBoss.InvalidationSpec | backend/app/services/adaptive_boss_service.py:347-356 | no key of the game survives; keys not matching the pattern keep their responses; nothing is added |
| AdaptiveBoss.StoreAdditionFor | backend/app/services/adaptive_boss_service.py:208-225 | an addition happens only for a known action, an effectiveness of at least 0.3 and a stored embedding, with the outcome's score |
| AdaptiveBoss.GateSpec | backend/app/services/adaptive_boss_service.py:209-225 | for a known action and game, the store is reached exactly when the score is ≥ 0.3 and the context has an embedding |
| AdaptiveBoss.RepeatedOutcomesAppend | backend/app/services/adaptive_boss_service.py:218-225 | two qualifying outcomes for one context leave two metadata entries, each with its own score |
| AdaptiveBoss.SimilarRender | backend/app/services/adaptive_boss_service.py:128-142 | when every stored entry is the dump of a player context, the situations the search returns always render, so a miss always reaches the prompt engine |
| AdaptiveBoss.ScoresOf | backend/app/services/adaptive_boss_service.py:252-258 | at most one score per action |
| AdaptiveBoss.ScoresOfCount | backend/app/services/adaptive_boss_service.py:252-258 | one score for each of the game's actions that has an effectiveness score |
| AdaptiveBoss.ScoresOfBelong | backend/app/services/adaptive_boss_service.py:252-258 | every score is the effectiveness recorded on one of the game's actions |
| AdaptiveBoss.CountGame | backend/app/services/adaptive_boss_service.py:248-249 | a table's `count()` for one game, over the table's game column, is at most the number of rows |
| AdaptiveBoss.CountGameSpec | backend/app/services/adaptive_boss_service.py:248-249 | the count is the number of rows whose game is the given one |
| AdaptiveBoss.SuccessRateSpec | backend/app/services/adaptive_boss_service.py:257-263 | the success rate is the share of scores of at least 0.5, so it lies in [0, 1]; 0.0 with no outcomes |
| AdaptiveBoss.Recent | backend/app/services/adaptive_boss_service.py:269-272 | at most ten scores, all of them when there are at most ten |
| AdaptiveBoss.StatsSpec | backend/app/services/adaptive_boss_service.py:257-289 | trend = recent − average, zero with at most ten outcomes; rate in [0, 1]; zeros with no outcomes; both averages between the lowest and highest score |
| AdaptiveBoss.RecentWithin | backend/app/services/adaptive_boss_service.py:269-276 | the recent scores are non-empty and between the lowest and highest score |
| AdaptiveBoss.AdaptiveBossService.constructor | backend/app/services/adaptive_boss_service.py:25-33 | empty tables, an empty cache and an empty vector store |
| AdaptiveBoss.AdaptiveBossService.RegisterGame | backend/app/services/adaptive_boss_service.py:35-93 | a known id gives "Game already registered" and changes nothing; a failed prompt creation changes nothing; a commit the tables refuse fails with "Failed to register game: " and the database's message and changes nothing. The tables refuse a game id over 100 characters, a name over 200, a prompt name (name + "_boss_behavior") over 200, and a prompt-engine id that is missing, over 100 characters or already used. Otherwise the game and its active prompt with that id are added and the game's index exists |
| AdaptiveBoss.AdaptiveBossService.GenerateBossAction | backend/app/services/adaptive_boss_service.py:95-187 | lookup failures are returned as is and send nothing; a cache hit returns the cached response, sends nothing and writes nothing; a miss sends the prompt inputs built from the store's search (five contexts, effectiveness at least 0.3) and the "environment" factor ("standard arena" by default), returns exactly the reply's action, and on success stores the context (de-duplicated), the action and the cache entry; failure leaves everything unchanged |
| AdaptiveBoss.AdaptiveBossService.GenerateForGame | backend/app/services/adaptive_boss_service.py:114-182 | a cache hit returns the cached response and sends nothing; a miss sends the prompt inputs of the store's search and returns the reply's action, stored as StoredGeneration says |
| AdaptiveBoss.AdaptiveBossService.GenerateUncached | backend/app/services/adaptive_boss_service.py:121-182 | the inputs sent are PromptFor of the store's search for five contexts of effectiveness at least 0.3, with the "environment" factor or "standard arena"; the result is exactly the reply's action; a success is stored, a failure changes nothing |
| AdaptiveBoss.AdaptiveBossService.Record | backend/app/services/adaptive_boss_service.py:144-178 | the context record is reused or added, the action row points at it, the response is cached |
| AdaptiveBoss.AdaptiveBossService.LogActionOutcome | backend/app/services/adaptive_boss_service.py:189-238 | an unknown action or game fails with its message without change; a known action and game whose addition is absent or of the index's dimension succeed: the outcome is recorded, the addition appended to the game's index, and the game's cache keys invalidated; a refused addition fails, leaves the tables and cache, and leaves the store with the game's index created and otherwise unchanged |
| AdaptiveBoss.AdaptiveBossService.AddToStore | backend/app/services/adaptive_boss_service.py:219-225 | the store appends the context exactly when the embedding has the index's dimension; otherwise only the game's index is created |
| AdaptiveBoss.AdaptiveBossService.RecordOutcome | backend/app/services/adaptive_boss_service.py:198-230 | the outcome is set on its action row, the game's cached responses are dropped, and the other tables are unchanged |
| AdaptiveBoss.AdaptiveBossService.GetGameStats | backend/app/services/adaptive_boss_service.py:240-295 | an unknown game fails; otherwise the context and action totals are the numbers of the game's rows, the rate is in [0, 1], and the index statistics and size come from the vector store |
| Realtime.ToBossActionRequest | backend/app/services/realtime_service.py:164-172 | the request carries the session's game, the session id, realtime set and the websocket request's fields; valid exactly when the websocket request is |
| Realtime.ToActionOutcomeData | backend/app/services/realtime_service.py:275-283 | the outcome carries the websocket outcome's fields and no player reaction; valid exactly when the websocket outcome is |
| Realtime.Dispatch | backend/app/services/realtime_service.py:91-117 | heartbeat, boss_action_request and action_outcome go to their handlers; an unknown type is rejected with an error |
| Realtime.OtherTypesOnlyLogged | backend/app/services/realtime_service.py:105-106 | every known type other than the three handled ones is only logged |
| Realtime.PerformanceTrend | backend/app/services/realtime_service.py:312 | "improving" exactly above 0.7, "stable" otherwise |
| Realtime.LearningUpdate | backend/app/services/realtime_service.py:296-313 | an update exists exactly when the statistics were read; it carries the index size, the average and the trend |
| Realtime.SweepSpec | backend/app/services/realtime_service.py:374-382 | the sweep keeps exactly the entries not older than the timeout, unchanged, and a second sweep changes nothing |
| Realtime.RealtimeService.constructor | backend/app/services/realtime_service.py:25-34 | no requests in flight and zero counters |
| Realtime.RealtimeService.LearningRate | backend/app/services/realtime_service.py:356 | the rate lies in [0, 1], is 0 with no requests and 1 when all succeeded |
| Realtime.RealtimeService.UpdateMetrics | backend/app/services/realtime_service.py:329-333 | one more request, one more success exactly when it succeeded; successes never exceed requests |
| Realtime.RealtimeService.HandleBossActionRequest | backend/app/services/realtime_service.py:139-201 | an invalid request or a session without a game gets an error and records nothing; otherwise the request is recorded under the server's id and acknowledged with that id |
| Realtime.RealtimeService.CompleteGeneration | backend/app/services/realtime_service.py:203-261 | the reply is sent whether or not the entry is still present; the counters record the result; the entry is removed either way |
| Realtime.RealtimeService.SweepExpired | backend/app/services/realtime_service.py:374-382 | the table becomes its sweep; the counters are unchanged |
| Realtime.LateCompletionStillReplies | backend/app/services/realtime_service.py:213-261 | a request swept before completion still gets its action reply, with response time 0 |
| Models.OutcomeToWire | backend/app/models.py:126-129 | decoding the wire string gives the outcome back |
| Models.OutcomeFromWire | backend/app/models.py:126-129 | exactly "success", "failure" and "partial" decode |
| Models.OutcomeWireRoundTrip | backend/app/models.py:126-129 | decoding an accepted string and encoding it again gives the string |
| Models.OutcomeEnumerated | backend/app/models.py:126-129 | exactly three outcomes, with distinct wire strings |
| Models.MessageTypeFromWire | backend/app/models.py:208-217 | a decoded string is the wire string of its type; a string no type uses is refused |
| Models.MessageTypeWireRoundTrip | backend/app/models.py:208-217 | encoding a message type and decoding it gives the type |
| Models.MessageTypesEnumerated | backend/app/models.py:208-217 | nine message types with nine distinct wire strings |
| Models.PlayerContextErrors | backend/app/models.py:132-143 | no errors exactly when dodge and health are in [0, 1], reaction time > 0, duration ≥ 0, deaths ≥ 0 and equipment ≥ 1 |
| Models.BossActionRequestErrors | backend/app/models.py:146-153 | no errors exactly when the player context is valid and boss health is in [0, 1] |
| Models.WebSocketBossActionRequestErrors | backend/app/models.py:234-239 | no errors exactly when the player context is valid and boss health is in [0, 1] |
| Models.BossActionResponseErrors | backend/app/models.py:156-170 | the only constraint is intensity in [0, 1] |
| Models.ActionOutcomeErrors | backend/app/models.py:173-181 | no errors exactly when effectiveness is in [0, 1], damage ≥ 0 and execution time > 0 |
| Models.WebSocketActionOutcomeErrors | backend/app/models.py:242-249 | the same bounds for an outcome sent over the websocket |
| Models.RegistrationErrors | backend/app/models.py:184-188 | no errors exactly when the id has 3..100 characters, the name 1..200, and a description at most 1000 |
| Models.DumpPlayerContext | backend/app/models.py:132-143 | a dumped player context has one entry per field |
| Models.DumpedContextReadsBack | backend/app/services/adaptive_boss_service.py:158 | the dumped context holds the dodge rate, health and difficulty under the keys the formatter reads |
| Json.Get | backend/app/services/jigsawstack_service.py:236-252 | `d.get(key)` finds a value stored under the key, and nothing exactly when the key is absent |
| Json.GetOr | backend/app/services/jigsawstack_service.py:236-252 | `d.get(key, default)` gives the default exactly when the key is absent |
| Text.Join | backend/app/services/jigsawstack_service.py:210 | joining gives "" for no parts, the part itself for one, and otherwise the parts' lengths plus one separator between each pair |
| Text.DigitsValueOfNatToString | backend/app/services/jigsawstack_service.py:158 | the decimal text of a natural number reads back as the number |
| Text.ParseDecimalOfNatToString | backend/app/services/jigsawstack_service.py:238 | `float(str(n)) == n` |
| Numeric.MeanBetweenMinAndMax | backend/app/services/faiss_service.py:203-205 | the mean of a non-empty list lies between its minimum and maximum |
| Numeric.FractionWithinUnit | backend/app/services/adaptive_boss_service.py:260 | a counted fraction lies in [0, 1] |
| Numeric.CountAtLeastSpec | backend/app/services/adaptive_boss_service.py:260 | the count is the number of positions whose score is at least the bound |

## Left out

- Persistence of the vector store (pickle files and writing and reading the index) is not modelled: it is I/O.
- `rebuild_index_from_db` and `optimize_game_index` are not modelled: they are database queries outside the core.
- L2 normalisation and float32 storage are not modelled. Similarity is a parameter, and embeddings are stored as given.
- Faiss.StatsOf: the standard deviation in `get_index_stats` is not computed, because it is floating-point arithmetic with no property to state.
- Faiss.FaissService.AddContext: a refused embedding is modelled as a refusal result, not as a raised exception.
- Number rendering (`{x:.1%}`, `{x:.2f}`, `{x:.1f}`, `str(v)` of non-strings) is a parameter, so the exact digits of prompt text are not modelled.
- Text.ParseDecimal covers sign, digits and one fraction point. Exponents, `inf`/`nan`, surrounding whitespace and underscores in `float(s)` are treated as failures.
- AdaptiveBoss.Glob supports `*` and `?` only. Character classes and escapes of Redis key patterns are not modelled.
- Cache and realtime-cache time-to-live values (3600 s, 300 s) are not modelled: expiry by time belongs to Redis.
- The unused `similarity_threshold` (0.7) of the orchestration is not modelled: nothing reads it.
- Asyncio tasks, the websocket manager, heartbeats, connection handling, the realtime cache and the broadcast itself are not modelled. They are imported from `app.database`, which does not define them, so their behaviour is unseen.
- Realtime.RealtimeService.CompleteGeneration: a send error after a success also runs the failure path in the source, counting the request twice. The model does not capture this, because sends are not modelled.
- Realtime.RealtimeService.UpdateMetrics: the average response time and actions per minute are not modelled: they are clock-driven floating-point averages.
- Realtime.LearningUpdate: the two `recent_improvements` strings are not modelled: they are percentage rendering only.
- Realtime.Dispatch: a message that fails validation for other reasons (wrong field types) is not modelled. Only an unknown type is rejected.
- Models: pydantic's error message texts are approximated by the list of failing field names.
- Embeddings are stored as values. The hex round trip through `tobytes().hex()` and `np.frombuffer` is not modelled.
- `execution_time` of an action row, the clock and `time.time()` are parameters or left out.
- The prompt-engine id that `generate_boss_action` puts in the request URL is not modelled: the HTTP call is a parameter.
- `create_boss_behavior_prompt` and every HTTP call are not modelled. Their result is a parameter: the created prompt id and the reply.
- Embedding creation and SHA-256 context hashing are parameters of the orchestration.
- Database rollback on an exception is modelled as unchanged tables.
- JWT, routing, encryption, schema declarations and scripts are outside the core.
