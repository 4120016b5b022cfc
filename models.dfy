/**
  The request/response records of the service layer, their field
  constraints, and the two string enums with their wire codecs.
  Floating-point fields are exact reals.
*/
module Models {
  import opened Wrappers
  import opened Json

  // ---------------------------------------------------------------- enums

  /** Outcome of one boss action as reported by the game client. */
  datatype GameActionOutcome = SuccessOutcome | FailureOutcome | PartialOutcome

  const AllOutcomes: seq<GameActionOutcome> := [SuccessOutcome, FailureOutcome, PartialOutcome]

  function OutcomeToWire(o: GameActionOutcome): (w: string)
    ensures OutcomeFromWire(w) == Some(o)
  {
    match o
    case SuccessOutcome => "success"
    case FailureOutcome => "failure"
    case PartialOutcome => "partial"
  }

  function OutcomeFromWire(w: string): (o: Option<GameActionOutcome>)
    ensures o.Some? <==> w in {"success", "failure", "partial"}
  {
    if w == "success" then Some(SuccessOutcome)
    else if w == "failure" then Some(FailureOutcome)
    else if w == "partial" then Some(PartialOutcome)
    else None
  }

  /** Decoding an accepted outcome string and encoding it again gives the string back. */
  lemma OutcomeWireRoundTrip(w: string)
    requires OutcomeFromWire(w).Some?
    ensures OutcomeToWire(OutcomeFromWire(w).value) == w
  {
  }

  /** The outcome enum has exactly three members, with three distinct wire strings. */
  lemma OutcomeEnumerated(o: GameActionOutcome)
    ensures o in AllOutcomes
    ensures |AllOutcomes| == 3
    ensures forall i, j :: 0 <= i < j < |AllOutcomes| ==> OutcomeToWire(AllOutcomes[i]) != OutcomeToWire(AllOutcomes[j])
  {
  }

  /** Type tag of a websocket message. */
  datatype WebSocketMessageType =
    | MsgConnect
    | MsgDisconnect
    | MsgHeartbeat
    | MsgBossActionRequest
    | MsgBossActionResponse
    | MsgActionOutcome
    | MsgLearningUpdate
    | MsgError
    | MsgStatus

  const AllMessageTypes: seq<WebSocketMessageType> :=
    [MsgConnect, MsgDisconnect, MsgHeartbeat, MsgBossActionRequest, MsgBossActionResponse,
     MsgActionOutcome, MsgLearningUpdate, MsgError, MsgStatus]

  function MessageTypeToWire(t: WebSocketMessageType): (w: string)
  {
    match t
    case MsgConnect => "connect"
    case MsgDisconnect => "disconnect"
    case MsgHeartbeat => "heartbeat"
    case MsgBossActionRequest => "boss_action_request"
    case MsgBossActionResponse => "boss_action_response"
    case MsgActionOutcome => "action_outcome"
    case MsgLearningUpdate => "learning_update"
    case MsgError => "error"
    case MsgStatus => "status"
  }

  function MessageTypeFromWire(w: string): (t: Option<WebSocketMessageType>)
    ensures t.Some? ==> MessageTypeToWire(t.value) == w
    ensures t.None? ==> forall u :: MessageTypeToWire(u) != w
  {
    if w == "connect" then Some(MsgConnect)
    else if w == "disconnect" then Some(MsgDisconnect)
    else if w == "heartbeat" then Some(MsgHeartbeat)
    else if w == "boss_action_request" then Some(MsgBossActionRequest)
    else if w == "boss_action_response" then Some(MsgBossActionResponse)
    else if w == "action_outcome" then Some(MsgActionOutcome)
    else if w == "learning_update" then Some(MsgLearningUpdate)
    else if w == "error" then Some(MsgError)
    else if w == "status" then Some(MsgStatus)
    else None
  }

  /** Encoding a message type and decoding the string gives the type back. */
  lemma MessageTypeWireRoundTrip(t: WebSocketMessageType)
    ensures MessageTypeFromWire(MessageTypeToWire(t)) == Some(t)
  {
  }

  /** Nine message types, every one listed once, with nine distinct wire strings. */
  lemma MessageTypesEnumerated(t: WebSocketMessageType)
    ensures t in AllMessageTypes
    ensures |AllMessageTypes| == 9
    ensures forall i, j :: 0 <= i < j < |AllMessageTypes| ==>
              MessageTypeToWire(AllMessageTypes[i]) != MessageTypeToWire(AllMessageTypes[j])
  {
  }

  // -------------------------------------------------------------- records

  datatype PlayerContextData = PlayerContextData(
    frequentActions: seq<string>,
    dodgeFrequency: real,
    attackPatterns: seq<string>,
    movementStyle: string,
    reactionTime: real,
    healthPercentage: real,
    difficultyPreference: string,
    sessionDuration: real,
    recentDeaths: int,
    equipmentLevel: int,
    additionalContext: Option<Fields>)

  datatype BossActionRequest = BossActionRequest(
    gameId: string,
    playerContext: PlayerContextData,
    bossHealthPercentage: real,
    battlePhase: string,
    environmentFactors: Fields,
    realtime: bool,
    sessionId: Option<string>)

  datatype BossActionResponse = BossActionResponse(
    bossAction: string,
    actionType: string,
    intensity: real,
    targetArea: Option<string>,
    duration: Option<real>,
    cooldown: Option<real>,
    animationId: Option<string>,
    soundEffects: seq<string>,
    visualEffects: seq<string>,
    damageMultiplier: Option<real>,
    successProbability: Option<real>,
    reasoning: Option<string>,
    responseTime: Option<real>,
    similarContextsUsed: int)

  datatype ActionOutcomeData = ActionOutcomeData(
    actionId: int,
    outcome: GameActionOutcome,
    effectivenessScore: real,
    damageDealt: real,
    playerHit: bool,
    executionTime: real,
    playerReaction: Option<string>,
    additionalMetrics: Fields)

  datatype GameRegistrationRequest = GameRegistrationRequest(
    gameId: string,
    name: string,
    description: Option<string>,
    vocabulary: Fields)

  datatype WebSocketBossActionRequest = WebSocketBossActionRequest(
    playerContext: PlayerContextData,
    bossHealthPercentage: real,
    battlePhase: string,
    environmentFactors: Fields,
    requestId: Option<string>)

  datatype WebSocketActionOutcome = WebSocketActionOutcome(
    actionId: int,
    outcome: GameActionOutcome,
    effectivenessScore: real,
    damageDealt: real,
    playerHit: bool,
    executionTime: real,
    additionalMetrics: Fields)

  datatype LearningUpdateData = LearningUpdateData(
    contextsLearned: int,
    avgEffectiveness: real,
    performanceTrend: string)

  // ---------------------------------------------------------- constraints

  predicate InUnit(x: real)
  {
    0.0 <= x <= 1.0
  }

  /** The field constraints of a player context. */
  predicate ValidPlayerContext(p: PlayerContextData)
  {
    && InUnit(p.dodgeFrequency)
    && p.reactionTime > 0.0
    && InUnit(p.healthPercentage)
    && p.sessionDuration >= 0.0
    && p.recentDeaths >= 0
    && p.equipmentLevel >= 1
  }

  function Check(ok: bool, field: string): seq<string>
  {
    if ok then [] else [field]
  }

  const PlayerContextFields: set<string> :=
    {"dodge_frequency", "reaction_time", "health_percentage", "session_duration",
     "recent_deaths", "equipment_level"}

  /** The fields a player context violates, as the validator reports them. */
  function PlayerContextErrors(p: PlayerContextData): (errs: seq<string>)
    ensures errs == [] <==> ValidPlayerContext(p)
    ensures forall e :: e in errs ==> e in PlayerContextFields
  {
    Check(InUnit(p.dodgeFrequency), "dodge_frequency")
    + Check(p.reactionTime > 0.0, "reaction_time")
    + Check(InUnit(p.healthPercentage), "health_percentage")
    + Check(p.sessionDuration >= 0.0, "session_duration")
    + Check(p.recentDeaths >= 0, "recent_deaths")
    + Check(p.equipmentLevel >= 1, "equipment_level")
  }

  function Nested(prefix: string, errs: seq<string>): (r: seq<string>)
    ensures |r| == |errs|
  {
    if errs == [] then [] else [prefix + errs[0]] + Nested(prefix, errs[1..])
  }

  predicate ValidBossActionRequest(r: BossActionRequest)
  {
    ValidPlayerContext(r.playerContext) && InUnit(r.bossHealthPercentage)
  }

  /** Errors of an HTTP boss-action request, nested player-context errors first. */
  function BossActionRequestErrors(r: BossActionRequest): (errs: seq<string>)
    ensures errs == [] <==> ValidBossActionRequest(r)
  {
    Nested("player_context.", PlayerContextErrors(r.playerContext))
    + Check(InUnit(r.bossHealthPercentage), "boss_health_percentage")
  }

  predicate ValidWebSocketBossActionRequest(r: WebSocketBossActionRequest)
  {
    ValidPlayerContext(r.playerContext) && InUnit(r.bossHealthPercentage)
  }

  /** Errors of a websocket boss-action request. */
  function WebSocketBossActionRequestErrors(r: WebSocketBossActionRequest): (errs: seq<string>)
    ensures errs == [] <==> ValidWebSocketBossActionRequest(r)
  {
    Nested("player_context.", PlayerContextErrors(r.playerContext))
    + Check(InUnit(r.bossHealthPercentage), "boss_health_percentage")
  }

  predicate ValidBossActionResponse(r: BossActionResponse)
  {
    InUnit(r.intensity)
  }

  /** Errors of a boss-action response: only the intensity is bounded. */
  function BossActionResponseErrors(r: BossActionResponse): (errs: seq<string>)
    ensures errs == [] <==> ValidBossActionResponse(r)
    ensures errs != [] ==> errs == ["intensity"]
  {
    Check(InUnit(r.intensity), "intensity")
  }

  predicate ValidActionOutcome(o: ActionOutcomeData)
  {
    InUnit(o.effectivenessScore) && o.damageDealt >= 0.0 && o.executionTime > 0.0
  }

  const OutcomeFields: set<string> := {"effectiveness_score", "damage_dealt", "execution_time"}

  /** Errors of an outcome report. */
  function ActionOutcomeErrors(o: ActionOutcomeData): (errs: seq<string>)
    ensures errs == [] <==> ValidActionOutcome(o)
    ensures forall e :: e in errs ==> e in OutcomeFields
  {
    Check(InUnit(o.effectivenessScore), "effectiveness_score")
    + Check(o.damageDealt >= 0.0, "damage_dealt")
    + Check(o.executionTime > 0.0, "execution_time")
  }

  predicate ValidWebSocketActionOutcome(o: WebSocketActionOutcome)
  {
    InUnit(o.effectivenessScore) && o.damageDealt >= 0.0 && o.executionTime > 0.0
  }

  /** Errors of an outcome report sent over the websocket. */
  function WebSocketActionOutcomeErrors(o: WebSocketActionOutcome): (errs: seq<string>)
    ensures errs == [] <==> ValidWebSocketActionOutcome(o)
    ensures forall e :: e in errs ==> e in OutcomeFields
  {
    Check(InUnit(o.effectivenessScore), "effectiveness_score")
    + Check(o.damageDealt >= 0.0, "damage_dealt")
    + Check(o.executionTime > 0.0, "execution_time")
  }

  predicate ValidRegistration(r: GameRegistrationRequest)
  {
    && 3 <= |r.gameId| <= 100
    && 1 <= |r.name| <= 200
    && (r.description.Some? ==> |r.description.value| <= 1000)
  }

  const RegistrationFields: set<string> := {"game_id", "name", "description"}

  /** Errors of a game registration: length limits on id, name and description. */
  function RegistrationErrors(r: GameRegistrationRequest): (errs: seq<string>)
    ensures errs == [] <==> ValidRegistration(r)
    ensures forall e :: e in errs ==> e in RegistrationFields
  {
    Check(3 <= |r.gameId| <= 100, "game_id")
    + Check(1 <= |r.name| <= 200, "name")
    + Check(r.description.None? || |r.description.value| <= 1000, "description")
  }

  // ------------------------------------------------------------ dumping

  function StringList(xs: seq<string>): (v: Value)
    ensures v.VList? && |v.items| == |xs|
    ensures forall i :: 0 <= i < |xs| ==> v.items[i] == VStr(xs[i])
  {
    VList(seq(|xs|, i requires 0 <= i < |xs| => VStr(xs[i])))
  }

  /** `player_context.model_dump()`: the dictionary stored with a context record. */
  function DumpPlayerContext(p: PlayerContextData): (d: Fields)
    ensures |d| == 11
  {
    [ ("frequent_actions", StringList(p.frequentActions)),
      ("dodge_frequency", VNum(p.dodgeFrequency)),
      ("attack_patterns", StringList(p.attackPatterns)),
      ("movement_style", VStr(p.movementStyle)),
      ("reaction_time", VNum(p.reactionTime)),
      ("health_percentage", VNum(p.healthPercentage)),
      ("difficulty_preference", VStr(p.difficultyPreference)),
      ("session_duration", VNum(p.sessionDuration)),
      ("recent_deaths", VInt(p.recentDeaths)),
      ("equipment_level", VInt(p.equipmentLevel)),
      ("additional_context", match p.additionalContext case Some(f) => VObject(f) case None => VNull) ]
  }

  /** The dictionary is what `model_dump()` gives for some player context. */
  ghost predicate IsPlayerContextDump(d: Fields)
  {
    exists p :: d == DumpPlayerContext(p)
  }

  /**
    The numeric and text fields the prompt formatter reads back from a dumped
    context are present with the context's own values, so its defaults never apply.
  */
  lemma DumpedContextReadsBack(p: PlayerContextData)
    ensures Get(DumpPlayerContext(p), "dodge_frequency") == Some(VNum(p.dodgeFrequency))
    ensures Get(DumpPlayerContext(p), "health_percentage") == Some(VNum(p.healthPercentage))
    ensures Get(DumpPlayerContext(p), "difficulty_preference") == Some(VStr(p.difficultyPreference))
  {
    var d := DumpPlayerContext(p);
    forall t | 0 <= t < 6
      ensures |d[t].0| != |"difficulty_preference"| && (t < 5 ==> |d[t].0| != |"health_percentage"|)
      ensures t < 1 ==> |d[t].0| != |"dodge_frequency"|
    {
      if t == 0 {} else if t == 1 {} else if t == 2 {} else if t == 3 {} else if t == 4 {} else {}
    }
    LookupByLength(d, 1, "dodge_frequency", VNum(p.dodgeFrequency));
    LookupByLength(d, 5, "health_percentage", VNum(p.healthPercentage));
    LookupByLength(d, 6, "difficulty_preference", VStr(p.difficultyPreference));
  }

  /** A key whose length differs from every earlier key is found at its own position. */
  lemma LookupByLength(d: Fields, i: nat, key: string, v: Value)
    requires i < |d| && d[i] == (key, v)
    requires forall t :: 0 <= t < i ==> |d[t].0| != |key|
    ensures Get(d, key) == Some(v)
  {
    GetFirst(d, i);
  }
}
