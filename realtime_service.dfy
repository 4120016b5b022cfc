/**
  The realtime websocket service: the table of requests in flight, keyed by
  a server-generated id; the request counters; the dispatch of incoming
  message types; and the learning update sent after an outcome. Clocks,
  request ids, session lookups and the orchestration's results are parameters.
*/
module Realtime {
  import opened Wrappers
  import opened Json
  import opened Models
  import Text
  import Numeric
  import AdaptiveBoss
  import JigsawStack

  /** One request in flight. */
  datatype ActiveRequest = ActiveRequest(
    sessionId: string, gameId: string, startTime: real, requestData: WebSocketBossActionRequest)

  /** A message sent to a client. */
  datatype Message = Message(kind: WebSocketMessageType, data: Fields, sessionId: Option<string>, gameId: Option<string>)

  const EstimatedTime := 2.0
  const ImprovingAbove := 0.7

  /** The acknowledgment of an accepted request. */
  function Acknowledgment(sessionId: string, requestId: string): Message
  {
    Message(MsgStatus, [("status", VStr("processing")), ("request_id", VStr(requestId)),
                        ("estimated_time", VNum(EstimatedTime))], Some(sessionId), None)
  }

  function ErrorReply(sessionId: string, error: string, requestId: string): Message
  {
    Message(MsgError, [("error", VStr(error)), ("request_id", VStr(requestId))], Some(sessionId), None)
  }

  /** The dictionary form of a boss action as it is sent to the client. */
  function ActionData(b: BossActionResponse): Fields
  {
    JigsawStack.ResponseFields(b)
    + [ ("response_time", JigsawStack.OptionalNumberValue(b.responseTime)),
        ("similar_contexts_used", VInt(b.similarContextsUsed)) ]
  }

  function ActionReply(sessionId: string, requestId: string, b: BossActionResponse): Message
  {
    Message(MsgBossActionResponse, [("request_id", VStr(requestId)), ("boss_action", VObject(ActionData(b)))],
            Some(sessionId), None)
  }

  /** The error text for a request that fails validation. */
  function ValidationError(errs: seq<string>): string
  {
    "validation error: " + Text.Join(errs, ", ")
  }

  /** The orchestration request built from a websocket request for the session's game. */
  function ToBossActionRequest(r: WebSocketBossActionRequest, gameId: string, sessionId: string): (b: BossActionRequest)
    ensures ValidBossActionRequest(b) <==> ValidWebSocketBossActionRequest(r)
    ensures b.gameId == gameId && b.realtime && b.sessionId == Some(sessionId)
    ensures b.playerContext == r.playerContext && b.bossHealthPercentage == r.bossHealthPercentage
    ensures b.battlePhase == r.battlePhase && b.environmentFactors == r.environmentFactors
  {
    BossActionRequest(gameId, r.playerContext, r.bossHealthPercentage, r.battlePhase, r.environmentFactors,
                      true, Some(sessionId))
  }

  /** The outcome record logged for a websocket outcome; no player reaction is carried over. */
  function ToActionOutcomeData(o: WebSocketActionOutcome): (d: ActionOutcomeData)
    ensures ValidActionOutcome(d) <==> ValidWebSocketActionOutcome(o)
    ensures d.actionId == o.actionId && d.outcome == o.outcome && d.effectivenessScore == o.effectivenessScore
    ensures d.damageDealt == o.damageDealt && d.playerHit == o.playerHit && d.executionTime == o.executionTime
    ensures d.playerReaction.None? && d.additionalMetrics == o.additionalMetrics
  {
    ActionOutcomeData(o.actionId, o.outcome, o.effectivenessScore, o.damageDealt, o.playerHit,
                      o.executionTime, None, o.additionalMetrics)
  }

  // --------------------------------------------------------------- dispatch

  datatype Route = HeartbeatHandler | BossActionRequestHandler | ActionOutcomeHandler | LogOnly | Rejected

  /** `handle_websocket_message`: a type the enum does not know is rejected with an error reply. */
  function Dispatch(rawType: string): (r: Route)
    ensures r == Rejected <==> MessageTypeFromWire(rawType).None?
    ensures r == HeartbeatHandler <==> rawType == "heartbeat"
    ensures r == BossActionRequestHandler <==> rawType == "boss_action_request"
    ensures r == ActionOutcomeHandler <==> rawType == "action_outcome"
  {
    match MessageTypeFromWire(rawType)
    case None => Rejected
    case Some(MsgHeartbeat) => HeartbeatHandler
    case Some(MsgBossActionRequest) => BossActionRequestHandler
    case Some(MsgActionOutcome) => ActionOutcomeHandler
    case Some(_) => LogOnly
  }

  /** Every known type other than the three handled ones is only logged. */
  lemma OtherTypesOnlyLogged(t: WebSocketMessageType)
    ensures Dispatch(MessageTypeToWire(t)) == LogOnly <==>
              t !in {MsgHeartbeat, MsgBossActionRequest, MsgActionOutcome}
  {
    MessageTypeWireRoundTrip(t);
  }

  // ------------------------------------------------------------- learning update

  /** The trend reported after an outcome: "improving" above 0.7, otherwise "stable". */
  function PerformanceTrend(effectiveness: real): (t: string)
    ensures t == "improving" <==> effectiveness > ImprovingAbove
    ensures t == "stable" <==> effectiveness <= ImprovingAbove
  {
    if effectiveness > ImprovingAbove then "improving" else "stable"
  }

  /**
    `_broadcast_learning_update`: nothing is broadcast when the statistics
    cannot be read; otherwise the update carries the index size, the average
    effectiveness and the trend for this outcome.
  */
  function LearningUpdate(stats: Result<AdaptiveBoss.GameStats, string>, effectiveness: real): (u: Option<LearningUpdateData>)
    ensures u.Some? <==> stats.Success?
    ensures u.Some? ==> u.value.contextsLearned == stats.value.faissStats.TotalContexts()
    ensures u.Some? ==> u.value.avgEffectiveness == stats.value.avgEffectiveness
    ensures u.Some? ==> (u.value.performanceTrend == "improving" <==> effectiveness > ImprovingAbove)
  {
    match stats
    case Failure(_) => None
    case Success(s) =>
      Some(LearningUpdateData(s.faissStats.TotalContexts(), s.avgEffectiveness, PerformanceTrend(effectiveness)))
  }

  // ------------------------------------------------------------------- sweep

  predicate Expired(r: ActiveRequest, now: real, timeout: real)
  {
    now - r.startTime > timeout
  }

  /** The request table after a sweep: exactly the entries not older than the timeout. */
  function Swept(active: map<string, ActiveRequest>, now: real, timeout: real): map<string, ActiveRequest>
  {
    map id | id in active && !Expired(active[id], now, timeout) :: active[id]
  }

  /** A sweep removes exactly the expired entries, leaves the rest untouched, and a second sweep changes nothing. */
  lemma SweepSpec(active: map<string, ActiveRequest>, now: real, timeout: real)
    ensures forall id :: id in Swept(active, now, timeout) <==> id in active && !Expired(active[id], now, timeout)
    ensures forall id :: id in Swept(active, now, timeout) ==> Swept(active, now, timeout)[id] == active[id]
    ensures Swept(Swept(active, now, timeout), now, timeout) == Swept(active, now, timeout)
    ensures (forall id :: id in active ==> !Expired(active[id], now, timeout)) ==> Swept(active, now, timeout) == active
  {
  }

  // ----------------------------------------------------------------- service

  class RealtimeService {
    var activeRequests: map<string, ActiveRequest>
    var totalRequests: nat
    var successfulRequests: nat

    ghost predicate Valid()
      reads this
    {
      successfulRequests <= totalRequests
    }

    constructor ()
      ensures Valid()
      ensures activeRequests == map[] && totalRequests == 0 && successfulRequests == 0
    {
      activeRequests := map[];
      totalRequests := 0;
      successfulRequests := 0;
    }

    /** `get_realtime_stats().learning_rate`: successful requests over all, at least one in the divisor. */
    function LearningRate(): (rate: real)
      reads this
      requires Valid()
      ensures 0.0 <= rate <= 1.0
      ensures totalRequests == 0 ==> rate == 0.0
      ensures totalRequests > 0 && successfulRequests == totalRequests ==> rate == 1.0
    {
      var divisor := if totalRequests < 1 then 1 else totalRequests;
      Numeric.FractionWithinUnit(successfulRequests, divisor);
      successfulRequests as real / divisor as real
    }

    /** `_update_metrics`: one more request, one more success exactly when it succeeded. */
    method UpdateMetrics(success: bool)
      requires Valid()
      modifies this
      ensures Valid()
      ensures totalRequests == old(totalRequests) + 1
      ensures successfulRequests == old(successfulRequests) + (if success then 1 else 0)
      ensures activeRequests == old(activeRequests)
    {
      totalRequests := totalRequests + 1;
      if success {
        successfulRequests := successfulRequests + 1;
      }
    }

    /**
      `_handle_boss_action_request`: an invalid request or a session without a
      game is answered with an error and records nothing; otherwise the
      request is recorded under the server's id, the job for the orchestration
      is returned, and the acknowledgment carries the server's id.
    */
    method HandleBossActionRequest(sessionId: string, request: WebSocketBossActionRequest,
                                   sessionGameId: Option<string>, requestId: string, now: real)
      returns (reply: Message, job: Option<BossActionRequest>)
      requires Valid()
      modifies this
      ensures Valid()
      ensures totalRequests == old(totalRequests) && successfulRequests == old(successfulRequests)
      ensures WebSocketBossActionRequestErrors(request) != [] ==>
                && reply == ErrorReply(sessionId, ValidationError(WebSocketBossActionRequestErrors(request)), requestId)
                && job.None? && activeRequests == old(activeRequests)
      ensures WebSocketBossActionRequestErrors(request) == [] && (sessionGameId.None? || sessionGameId == Some("")) ==>
                && reply == ErrorReply(sessionId, "No game_id found for session", requestId)
                && job.None? && activeRequests == old(activeRequests)
      ensures job.Some? <==> ValidWebSocketBossActionRequest(request) && sessionGameId.Some? && sessionGameId.value != ""
      ensures job.Some? ==>
                && activeRequests == old(activeRequests)[requestId := ActiveRequest(sessionId, sessionGameId.value, now, request)]
                && job.value == ToBossActionRequest(request, sessionGameId.value, sessionId)
                && reply == Acknowledgment(sessionId, requestId)
    {
      var errs := WebSocketBossActionRequestErrors(request);
      if errs != [] {
        return ErrorReply(sessionId, ValidationError(errs), requestId), None;
      }
      if sessionGameId.None? || sessionGameId.value == "" {
        return ErrorReply(sessionId, "No game_id found for session", requestId), None;
      }
      var gameId := sessionGameId.value;
      activeRequests := activeRequests[requestId := ActiveRequest(sessionId, gameId, now, request)];
      job := Some(ToBossActionRequest(request, gameId, sessionId));
      reply := Acknowledgment(sessionId, requestId);
    }

    /**
      `_generate_boss_action_async` after the orchestration has answered: the
      reply is sent whether or not the request is still in the table, the
      counters record the result, and the request's entry is removed either way.
    */
    method CompleteGeneration(requestId: string, sessionId: string,
                              generated: Result<BossActionResponse, string>, now: real)
      returns (reply: Message)
      requires Valid()
      modifies this
      ensures Valid()
      ensures activeRequests == old(activeRequests) - {requestId}
      ensures totalRequests == old(totalRequests) + 1
      ensures successfulRequests == old(successfulRequests) + (if generated.Success? then 1 else 0)
      ensures generated.Failure? ==> reply == ErrorReply(sessionId, generated.error, requestId)
      ensures generated.Success? ==>
                var started := if requestId in old(activeRequests) then old(activeRequests[requestId].startTime) else now;
                reply == ActionReply(sessionId, requestId, generated.value.(responseTime := Some(now - started)))
    {
      if generated.Success? {
        var started := if requestId in activeRequests then activeRequests[requestId].startTime else now;
        var responseTime := now - started;
        UpdateMetrics(true);
        reply := ActionReply(sessionId, requestId, generated.value.(responseTime := Some(responseTime)));
      } else {
        UpdateMetrics(false);
        reply := ErrorReply(sessionId, generated.error, requestId);
      }
      activeRequests := activeRequests - {requestId};
    }

    /** The sweep of the cleanup task: drops every request older than the timeout. */
    method SweepExpired(now: real, timeout: real)
      requires Valid()
      modifies this
      ensures Valid()
      ensures activeRequests == Swept(old(activeRequests), now, timeout)
      ensures totalRequests == old(totalRequests) && successfulRequests == old(successfulRequests)
    {
      var expired := set id | id in activeRequests && Expired(activeRequests[id], now, timeout);
      ghost var before := activeRequests;
      var remaining := expired;
      while remaining != {}
        invariant remaining <= expired
        invariant activeRequests == before - (expired - remaining)
        invariant totalRequests == old(totalRequests) && successfulRequests == old(successfulRequests)
        decreases remaining
      {
        var id :| id in remaining;
        activeRequests := activeRequests - {id};
        remaining := remaining - {id};
      }
      assert activeRequests == Swept(before, now, timeout);
    }
  }

  /** A request swept before its generation completes still gets its reply; the response time then reads 0. */
  method LateCompletionStillReplies(b: BossActionResponse) returns (reply: Message)
    ensures reply == ActionReply("s1", "r1", b.(responseTime := Some(0.0)))
  {
    var service := new RealtimeService();
    var request := WebSocketBossActionRequest(
      PlayerContextData([], 0.5, [], "aggressive", 0.3, 1.0, "normal", 5.0, 0, 1, None), 0.5, "opening", [], None);
    var ack, job := service.HandleBossActionRequest("s1", request, Some("arena"), "r1", 10.0);
    assert job.Some? && "r1" in service.activeRequests;
    service.SweepExpired(100.0, 30.0);
    assert "r1" !in service.activeRequests;
    reply := service.CompleteGeneration("r1", "s1", Success(b), 101.0);
    assert service.totalRequests == 1 && service.successfulRequests == 1;
  }
}
