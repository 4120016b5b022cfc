/**
  The local logic of the prompt-engine client: turning a player context and
  the similar past situations into prompt text, and turning the engine's loose
  reply into a boss action with defaults, a clamp and a fixed fallback. The
  HTTP calls themselves are not modelled; number rendering is a parameter.
*/
module JigsawStack {
  import opened Wrappers
  import opened Json
  import opened Models
  import Text
  import Faiss

  /**
    How numbers and values are rendered in prompt text: `{x:.1%}`,
    `{x:.Nf}` and `str(v)` of a value that is not a string.
  */
  datatype Renderer = Renderer(percent: real -> string, fixed: (real, nat) -> string, show: Value -> string)

  /** `f"{v}"`: a string as itself, anything else as `str()` renders it. */
  function Display(v: Value, r: Renderer): (t: string)
    ensures v.VStr? ==> t == v.s
  {
    match v
    case VStr(s) => s
    case _ => r.show(v)
  }

  /** `f"{v:.1%}"` of a value: numbers and booleans render, anything else raises. */
  function PercentOf(v: Value, r: Renderer): (t: Option<string>)
    ensures t.Some? <==> v.VNum? || v.VInt? || v.VBool?
    ensures v.VNum? ==> t == Some(r.percent(v.r))
    ensures v.VInt? ==> t == Some(r.percent(v.i as real))
  {
    match v
    case VNum(x) => Some(r.percent(x))
    case VInt(i) => Some(r.percent(i as real))
    case VBool(b) => Some(r.percent(if b then 1.0 else 0.0))
    case _ => None
  }

  // ------------------------------------------------------ player context text

  const Separator := " | "

  /** The ten fixed segments describing a player. */
  function PlayerContextHead(p: PlayerContextData, r: Renderer): (parts: seq<string>)
    ensures |parts| == 10
  {
    [ "Frequent actions: " + Text.Join(p.frequentActions, ", "),
      "Dodge frequency: " + r.percent(p.dodgeFrequency),
      "Attack patterns: " + Text.Join(p.attackPatterns, ", "),
      "Movement style: " + p.movementStyle,
      "Reaction time: " + r.fixed(p.reactionTime, 2) + "s",
      "Current health: " + r.percent(p.healthPercentage),
      "Difficulty preference: " + p.difficultyPreference,
      "Session duration: " + r.fixed(p.sessionDuration, 1) + " minutes",
      "Recent deaths: " + Text.IntToString(p.recentDeaths),
      "Equipment level: " + Text.IntToString(p.equipmentLevel) ]
  }

  /** `f"{key}: {value}"` for one additional-context item. */
  function ItemText(item: (string, Value), r: Renderer): string
  {
    item.0 + ": " + Display(item.1, r)
  }

  /** One segment per additional-context item, in the dictionary's order. */
  function AdditionalParts(items: Fields, r: Renderer): (parts: seq<string>)
    ensures |parts| == |items|
    ensures forall i :: 0 <= i < |items| ==> parts[i] == ItemText(items[i], r)
  {
    if items == [] then []
    else AdditionalParts(items[..|items| - 1], r) + [ItemText(items[|items| - 1], r)]
  }

  function AdditionalContext(p: PlayerContextData): Fields
  {
    match p.additionalContext
    case Some(f) => f
    case None => []
  }

  /** The segments `_format_player_context` joins. */
  function PlayerContextParts(p: PlayerContextData, r: Renderer): seq<string>
  {
    PlayerContextHead(p, r) + AdditionalParts(AdditionalContext(p), r)
  }

  /**
    Ten fixed segments, led by the frequent actions, then one
    "key: value" segment per additional-context item, in order.
  */
  lemma PlayerContextPartsSpec(p: PlayerContextData, r: Renderer)
    ensures var parts := PlayerContextParts(p, r);
      && |parts| == 10 + |AdditionalContext(p)|
      && parts[0] == "Frequent actions: " + Text.Join(p.frequentActions, ", ")
      && parts[9] == "Equipment level: " + Text.IntToString(p.equipmentLevel)
      && (forall i :: 0 <= i < |AdditionalContext(p)| ==>
            parts[10 + i] == AdditionalContext(p)[i].0 + ": " + Display(AdditionalContext(p)[i].1, r))
    ensures "Frequent actions: " <= Text.Join(PlayerContextParts(p, r), Separator)
  {
    var parts := PlayerContextParts(p, r);
    Text.JoinStartsWithFirst(parts, Separator);
  }

  /** `_format_player_context`. */
  method FormatPlayerContext(p: PlayerContextData, r: Renderer) returns (text: string)
    ensures text == Text.Join(PlayerContextParts(p, r), Separator)
  {
    var parts := PlayerContextHead(p, r);
    if p.additionalContext.Some? {
      var items := p.additionalContext.value;
      var i := 0;
      while i < |items|
        invariant 0 <= i <= |items|
        invariant parts == PlayerContextHead(p, r) + AdditionalParts(items[..i], r)
      {
        assert items[..i + 1][..i] == items[..i];
        parts := parts + [ItemText(items[i], r)];
        i := i + 1;
      }
      assert items[..|items|] == items;
    }
    assert parts == PlayerContextParts(p, r);
    text := Text.Join(parts, Separator);
  }

  // ---------------------------------------------------- similar contexts text

  const NoSimilarSituations := "No similar past situations found."
  const MaxSituations := 3

  /** The summary of the i-th similar situation; None when a stored value cannot be rendered as a percentage. */
  function SituationSummary(i: nat, c: Faiss.SearchResult, r: Renderer): Option<string>
  {
    match SituationDetails(c, r)
    case Some(details) => Some(SituationPrefix(i) + details)
    case None => None
  }

  function SituationPrefix(i: nat): string
  {
    "Situation " + Text.NatToString(i) + " (Effectiveness: "
  }

  /** What a summary says after its number: the scores and the player's dodge rate, health and difficulty. */
  function SituationDetails(c: Faiss.SearchResult, r: Renderer): Option<string>
  {
    var dodge := PercentOf(GetOr(c.contextData, "dodge_frequency", VInt(0)), r);
    var health := PercentOf(GetOr(c.contextData, "health_percentage", VInt(1)), r);
    var difficulty := Display(GetOr(c.contextData, "difficulty_preference", VStr("normal")), r);
    if dodge.None? || health.None? then None
    else Some(
      r.percent(c.effectivenessScore)
      + ", Similarity: " + r.percent(c.similarityScore) + "): "
      + "Player had " + dodge.value + " dodge rate, "
      + health.value + " health, "
      + "preferred " + difficulty + " difficulty")
  }

  /** Every rendered summary opens with its 1-based number. */
  lemma SummaryStartsWithNumber(i: nat, c: Faiss.SearchResult, r: Renderer, summary: string)
    requires SituationSummary(i, c, r) == Some(summary)
    ensures SituationPrefix(i) <= summary
  {
    var details := SituationDetails(c, r).value;
    assert summary == SituationPrefix(i) + details;
    assert (SituationPrefix(i) + details)[..|SituationPrefix(i)|] == SituationPrefix(i);
  }

  /** The summaries of the first n situations, numbered from 1; each None when it cannot be rendered. */
  function Situations(cs: seq<Faiss.SearchResult>, r: Renderer, n: nat): (ss: seq<Option<string>>)
    requires n <= |cs|
    ensures |ss| == n
  {
    seq(n, i requires 0 <= i < n => SituationSummary(i + 1, cs[i], r))
  }

  /** All the parts when every one is present; None as soon as one is missing. */
  function AllPresent(ss: seq<Option<string>>): (parts: Option<seq<string>>)
    ensures parts.Some? <==> forall i :: 0 <= i < |ss| ==> ss[i].Some?
    ensures parts.Some? ==> |parts.value| == |ss| && forall i :: 0 <= i < |ss| ==> ss[i] == Some(parts.value[i])
  {
    if ss == [] then Some([])
    else
      var prior := AllPresent(ss[..|ss| - 1]);
      var last := ss[|ss| - 1];
      assert forall i :: 0 <= i < |ss| - 1 ==> ss[..|ss| - 1][i] == ss[i];
      if prior.Some? && last.Some? then
        var parts := prior.value + [last.value];
        assert forall i :: 0 <= i < |ss| - 1 ==> parts[i] == prior.value[i];
        Some(parts)
      else None
  }

  /** Parts that match every present summary are what `AllPresent` returns. */
  lemma {:induction false} AllPresentOf(ss: seq<Option<string>>, parts: seq<string>)
    requires |parts| == |ss|
    requires forall i :: 0 <= i < |ss| ==> ss[i] == Some(parts[i])
    ensures AllPresent(ss) == Some(parts)
  {
    if ss != [] {
      var n := |ss|;
      AllPresentOf(ss[..n - 1], parts[..n - 1]);
      assert parts == parts[..n - 1] + [parts[n - 1]];
    }
  }

  /** What `_format_similar_contexts` returns; None when it raises. */
  function SimilarContextsText(cs: seq<Faiss.SearchResult>, r: Renderer): Option<string>
  {
    if cs == [] then Some(NoSimilarSituations)
    else
      var n := if |cs| < MaxSituations then |cs| else MaxSituations;
      match AllPresent(Situations(cs, r, n))
      case Some(parts) => Some(Text.Join(parts, Separator))
      case None => None
  }

  /**
    No situations give the fixed placeholder; otherwise the text joins one
    summary for each of the first three situations at most, numbered from 1.
  */
  lemma SimilarContextsTextSpec(cs: seq<Faiss.SearchResult>, r: Renderer)
    ensures cs == [] ==> SimilarContextsText(cs, r) == Some(NoSimilarSituations)
    ensures cs != [] && SimilarContextsText(cs, r).Some? ==>
      var n := if |cs| < MaxSituations then |cs| else MaxSituations;
      var parts := AllPresent(Situations(cs, r, n)).value;
      && |parts| == n <= 3
      && SimilarContextsText(cs, r) == Some(Text.Join(parts, Separator))
      && (forall i :: 0 <= i < n ==> SituationPrefix(i + 1) <= parts[i])
  {
    if cs != [] && SimilarContextsText(cs, r).Some? {
      var n := if |cs| < MaxSituations then |cs| else MaxSituations;
      PartsNumbered(cs, r, n);
    }
  }

  /** Each rendered summary opens with its 1-based number. */
  lemma PartsNumbered(cs: seq<Faiss.SearchResult>, r: Renderer, n: nat)
    requires n <= |cs| && AllPresent(Situations(cs, r, n)).Some?
    ensures forall i :: 0 <= i < n ==> SituationPrefix(i + 1) <= AllPresent(Situations(cs, r, n)).value[i]
  {
    var ss := Situations(cs, r, n);
    var parts := AllPresent(ss).value;
    forall i | 0 <= i < n
      ensures SituationPrefix(i + 1) <= parts[i]
    {
      SituationNumbered(cs, r, n, i, parts[i]);
    }
  }

  lemma SituationNumbered(cs: seq<Faiss.SearchResult>, r: Renderer, n: nat, i: nat, part: string)
    requires i < n <= |cs| && Situations(cs, r, n)[i] == Some(part)
    ensures SituationPrefix(i + 1) <= part
  {
    SummaryStartsWithNumber(i + 1, cs[i], r, part);
  }

  /** Situations whose data is a dumped player context always render. */
  lemma DumpedContextsRender(cs: seq<Faiss.SearchResult>, r: Renderer)
    requires forall i :: 0 <= i < |cs| ==> IsPlayerContextDump(cs[i].contextData)
    ensures SimilarContextsText(cs, r).Some?
  {
    forall i | 0 <= i < |cs| && i < MaxSituations
      ensures SituationSummary(i + 1, cs[i], r).Some?
    {
      var p :| cs[i].contextData == DumpPlayerContext(p);
      DumpedContextRenders(i + 1, cs[i], p, r);
    }
    SituationsRender(cs, r);
  }

  /** When each of the first three situations renders, so does the text. */
  lemma SituationsRender(cs: seq<Faiss.SearchResult>, r: Renderer)
    requires forall i :: 0 <= i < |cs| && i < MaxSituations ==> SituationSummary(i + 1, cs[i], r).Some?
    ensures SimilarContextsText(cs, r).Some?
  {
    var n := if |cs| < MaxSituations then |cs| else MaxSituations;
    var ss := Situations(cs, r, n);
    assert forall i :: 0 <= i < n ==> ss[i].Some?;
  }

  /** One situation stored from a dumped player context renders. */
  lemma DumpedContextRenders(i: nat, c: Faiss.SearchResult, p: PlayerContextData, r: Renderer)
    requires c.contextData == DumpPlayerContext(p)
    ensures SituationSummary(i, c, r).Some?
  {
    DumpedContextReadsBack(p);
    ReadFieldsRender(i, c, r, p.dodgeFrequency, p.healthPercentage);
  }

  /** A situation whose dodge rate and health are stored as numbers renders. */
  lemma ReadFieldsRender(i: nat, c: Faiss.SearchResult, r: Renderer, dodge: real, health: real)
    requires Get(c.contextData, "dodge_frequency") == Some(VNum(dodge))
    requires Get(c.contextData, "health_percentage") == Some(VNum(health))
    ensures SituationSummary(i, c, r).Some?
  {
  }

  /** A situation without the player fields reads as 0% dodge, 100% health, normal difficulty. */
  lemma MissingFieldsUseDefaults(i: nat, c: Faiss.SearchResult, r: Renderer)
    requires Get(c.contextData, "dodge_frequency").None?
    requires Get(c.contextData, "health_percentage").None?
    requires Get(c.contextData, "difficulty_preference").None?
    ensures SituationSummary(i, c, r) == Some(SituationPrefix(i) + (
      r.percent(c.effectivenessScore)
      + ", Similarity: " + r.percent(c.similarityScore) + "): "
      + "Player had " + r.percent(0.0) + " dodge rate, "
      + r.percent(1.0) + " health, "
      + "preferred " + "normal" + " difficulty"))
  {
  }

  /** `_format_similar_contexts`; None when rendering a stored value raises. */
  method FormatSimilarContexts(cs: seq<Faiss.SearchResult>, r: Renderer) returns (text: Option<string>)
    ensures text == SimilarContextsText(cs, r)
  {
    if cs == [] {
      return Some(NoSimilarSituations);
    }
    var n := if |cs| < MaxSituations then |cs| else MaxSituations;
    ghost var ss := Situations(cs, r, n);
    var formatted: seq<string> := [];
    var i := 0;
    while i < n
      invariant 0 <= i <= n && |formatted| == i
      invariant forall j :: 0 <= j < i ==> ss[j] == Some(formatted[j])
    {
      var summary := SituationSummary(i + 1, cs[i], r);
      assert ss[i] == summary;
      if summary.None? {
        return None;
      }
      formatted := formatted + [summary.value];
      i := i + 1;
    }
    AllPresentOf(ss, formatted);
    text := Some(Text.Join(formatted, Separator));
  }

  // ------------------------------------------------------------------ parser

  const DefaultAction := "basic attack"
  const DefaultActionType := "attack"
  const DefaultIntensity := 0.5
  const FallbackReasoning := "Default action due to parsing error"

  /** The action returned when the reply cannot be parsed. */
  function Fallback(): (b: BossActionResponse)
    ensures ValidBossActionResponse(b)
  {
    BossActionResponse(DefaultAction, DefaultActionType, DefaultIntensity, None, None, None, None,
                       [], [], Some(1.0), None, Some(FallbackReasoning), None, 0)
  }

  /** `float(v)`: numbers and booleans convert, strings are parsed, anything else fails. */
  function ToFloat(v: Value): (x: Option<real>)
    ensures v.VNum? ==> x == Some(v.r)
    ensures v.VInt? ==> x == Some(v.i as real)
    ensures v.VBool? ==> x == Some(if v.b then 1.0 else 0.0)
    ensures v.VStr? ==> x == Text.ParseDecimal(v.s)
    ensures v.VNull? || v.VList? || v.VObject? ==> x.None?
  {
    match v
    case VNum(r) => Some(r)
    case VInt(i) => Some(i as real)
    case VBool(b) => Some(if b then 1.0 else 0.0)
    case VStr(s) => Text.ParseDecimal(s)
    case _ => None
  }

  /** `max(0.0, min(1.0, x))`. */
  function Clamp(x: real): (y: real)
    ensures InUnit(y)
    ensures InUnit(x) ==> y == x
    ensures x < 0.0 ==> y == 0.0
    ensures x > 1.0 ==> y == 1.0
  {
    if x < 0.0 then 0.0 else if x > 1.0 then 1.0 else x
  }

  /** A required string field: only a string is accepted. */
  function StringField(v: Value): (s: Option<string>)
    ensures s.Some? <==> v.VStr?
  {
    if v.VStr? then Some(v.s) else None
  }

  /** An optional string field: null is None, a string is kept, anything else is rejected. */
  function OptionalString(v: Value): (s: Option<Option<string>>)
    ensures v.VNull? ==> s == Some(None)
    ensures v.VStr? ==> s == Some(Some(v.s))
    ensures s.None? <==> !v.VNull? && !v.VStr?
  {
    match v
    case VNull => Some(None)
    case VStr(t) => Some(Some(t))
    case _ => None
  }

  /** `float(v) if v is not None else None`. */
  function OptionalFloat(v: Value): (x: Option<Option<real>>)
    ensures v.VNull? ==> x == Some(None)
    ensures !v.VNull? ==> (x.Some? <==> ToFloat(v).Some?)
    ensures !v.VNull? && x.Some? ==> x.value == ToFloat(v)
  {
    if v.VNull? then Some(None)
    else match ToFloat(v)
      case Some(f) => Some(Some(f))
      case None => None
  }

  /** The texts of a list whose items are all strings; None if one is not. */
  function Strings(items: seq<Value>): (e: Option<seq<string>>)
    ensures e.Some? <==> forall i :: 0 <= i < |items| ==> items[i].VStr?
    ensures e.Some? ==> |e.value| == |items| && forall i :: 0 <= i < |items| ==> items[i] == VStr(e.value[i])
  {
    if items == [] then Some([])
    else match (items[0], Strings(items[1..]))
      case (VStr(t), Some(rest)) => Some([t] + rest)
      case _ => None
  }

  /** A list of effects: a non-list becomes empty, a list must hold strings only. */
  function Effects(v: Value): (e: Option<seq<string>>)
    ensures !v.VList? ==> e == Some([])
    ensures v.VList? ==> e == Strings(v.items)
  {
    if v.VList? then Strings(v.items) else Some([])
  }

  /** A list of strings reads back as itself. */
  lemma EffectsOfStringList(xs: seq<string>)
    ensures Effects(StringList(xs)) == Some(xs)
  {
    var e := Effects(StringList(xs));
    assert e.Some?;
    assert e.value == xs;
  }

  /**
    The response built from the twelve values read from a reply (each already
    defaulted as the parser's `get` calls default it), None where one fails
    its conversion or check.
  */
  function Assemble(action: Value, actionType: Value, intensity: Value, targetArea: Value,
                    duration: Value, cooldown: Value, animationId: Value, sounds: Value,
                    visuals: Value, damage: Value, success: Value, reasoning: Value): (b: Option<BossActionResponse>)
    ensures b.Some? ==> ValidBossActionResponse(b.value)
  {
    var action := StringField(action);
    var actionType := StringField(actionType);
    var intensity := ToFloat(intensity);
    var targetArea := OptionalString(targetArea);
    var duration := OptionalFloat(duration);
    var cooldown := OptionalFloat(cooldown);
    var animationId := OptionalString(animationId);
    var sounds := Effects(sounds);
    var visuals := Effects(visuals);
    var damage := OptionalFloat(damage);
    var success := OptionalFloat(success);
    var reasoning := OptionalString(reasoning);
    if || action.None? || actionType.None? || intensity.None? || targetArea.None?
       || duration.None? || cooldown.None? || animationId.None? || sounds.None?
       || visuals.None? || damage.None? || success.None? || reasoning.None?
    then None
    else Some(BossActionResponse(
      action.value, actionType.value, Clamp(intensity.value), targetArea.value,
      duration.value, cooldown.value, animationId.value, sounds.value, visuals.value,
      damage.value, success.value, reasoning.value, None, 0))
  }

  /** The parse of a reply dictionary, None where a conversion or a field check fails. */
  function TryParse(d: Fields): (b: Option<BossActionResponse>)
    ensures b.Some? ==> ValidBossActionResponse(b.value)
  {
    Assemble(
      GetOr(d, "boss_action", VStr(DefaultAction)),
      GetOr(d, "action_type", VStr(DefaultActionType)),
      GetOr(d, "intensity", VNum(DefaultIntensity)),
      GetOr(d, "target_area", VNull),
      GetOr(d, "duration", VNull),
      GetOr(d, "cooldown", VNull),
      GetOr(d, "animation_id", VNull),
      GetOr(d, "sound_effects", VList([])),
      GetOr(d, "visual_effects", VList([])),
      GetOr(d, "damage_multiplier", VNum(1.0)),
      GetOr(d, "success_probability", VNull),
      GetOr(d, "reasoning", VNull))
  }

  /** `_parse_boss_action_response`: total, always a valid response. */
  function ParseBossActionResponse(data: Value): (b: BossActionResponse)
    ensures ValidBossActionResponse(b)
    ensures !data.VObject? ==> b == Fallback()
    ensures data.VObject? && TryParse(data.fields).None? ==> b == Fallback()
    ensures data.VObject? && TryParse(data.fields).Some? ==> b == TryParse(data.fields).value
  {
    if data.VObject? then
      match TryParse(data.fields)
      case Some(parsed) => parsed
      case None => Fallback()
    else Fallback()
  }

  /** The parsed intensity is the reply's intensity, clamped into [0, 1]. */
  lemma IntensityIsClamped(d: Fields, x: real)
    requires TryParse(d).Some?
    requires ToFloat(GetOr(d, "intensity", VNum(DefaultIntensity))) == Some(x)
    ensures ParseBossActionResponse(VObject(d)).intensity == Clamp(x)
    ensures InUnit(ParseBossActionResponse(VObject(d)).intensity)
  {
  }

  /**
    A reply without an action, an action type or an intensity gets
    "basic attack", "attack" and 0.5, whether it parses or falls back.
  */
  lemma MissingCoreFieldsDefault(d: Fields)
    requires Get(d, "boss_action").None? && Get(d, "action_type").None? && Get(d, "intensity").None?
    ensures var b := ParseBossActionResponse(VObject(d));
            b.bossAction == DefaultAction && b.actionType == DefaultActionType && b.intensity == DefaultIntensity
  {
  }

  /** Effects that are not a list are read as no effects, and never cause the fallback. */
  lemma NonListEffectsAreEmpty(d: Fields)
    requires TryParse(d).Some?
    requires !GetOr(d, "sound_effects", VList([])).VList?
    requires !GetOr(d, "visual_effects", VList([])).VList?
    ensures TryParse(d).value.soundEffects == [] && TryParse(d).value.visualEffects == []
  {
  }

  /** Absent optional numbers: the damage multiplier is 1.0, the others stay unset. */
  lemma AbsentOptionalNumbers(d: Fields)
    requires TryParse(d).Some?
    requires Get(d, "damage_multiplier").None? && Get(d, "duration").None?
    requires Get(d, "cooldown").None? && Get(d, "success_probability").None?
    ensures var b := TryParse(d).value;
            b.damageMultiplier == Some(1.0) && b.duration.None? && b.cooldown.None? && b.successProbability.None?
  {
  }

  /** An intensity that is not a number, or text that is not one, leads to the fixed fallback. */
  lemma UnreadableIntensityFallsBack(d: Fields, v: Value)
    requires Get(d, "intensity") == Some(v)
    requires ToFloat(v).None?
    ensures ParseBossActionResponse(VObject(d)) == Fallback()
    ensures ParseBossActionResponse(VObject(d)).reasoning == Some(FallbackReasoning)
  {
  }

  /** A concrete unreadable reply: intensity "high". */
  lemma IntensityTextFallsBack()
    ensures ParseBossActionResponse(VObject([("intensity", VStr("high"))])) == Fallback()
  {
    var d := [("intensity", VStr("high"))];
    assert Get(d, "intensity") == Some(VStr("high"));
    assert Text.IndexOf("high", '.') == None;
    UnreadableIntensityFallsBack(d, VStr("high"));
  }

  // -------------------------------------------------- reply shape round trip

  function OptionalStringValue(s: Option<string>): Value
  {
    match s
    case Some(t) => VStr(t)
    case None => VNull
  }

  function OptionalNumberValue(x: Option<real>): Value
  {
    match x
    case Some(f) => VNum(f)
    case None => VNull
  }

  lemma OptionalStringRoundTrip(s: Option<string>)
    ensures OptionalString(OptionalStringValue(s)) == Some(s)
  {
  }

  lemma OptionalNumberRoundTrip(x: Option<real>)
    ensures OptionalFloat(OptionalNumberValue(x)) == Some(x)
  {
  }

  /** The values of a written-out response assemble back into it. */
  lemma AssembleWritten(b: BossActionResponse)
    requires ValidBossActionResponse(b)
    requires b.responseTime.None? && b.similarContextsUsed == 0
    ensures Assemble(VStr(b.bossAction), VStr(b.actionType), VNum(b.intensity),
                     OptionalStringValue(b.targetArea), OptionalNumberValue(b.duration),
                     OptionalNumberValue(b.cooldown), OptionalStringValue(b.animationId),
                     StringList(b.soundEffects), StringList(b.visualEffects),
                     OptionalNumberValue(b.damageMultiplier), OptionalNumberValue(b.successProbability),
                     OptionalStringValue(b.reasoning)) == Some(b)
  {
    EffectsOfStringList(b.soundEffects);
    EffectsOfStringList(b.visualEffects);
    OptionalStringRoundTrip(b.targetArea);
    OptionalStringRoundTrip(b.animationId);
    OptionalStringRoundTrip(b.reasoning);
    OptionalNumberRoundTrip(b.duration);
    OptionalNumberRoundTrip(b.cooldown);
    OptionalNumberRoundTrip(b.damageMultiplier);
    OptionalNumberRoundTrip(b.successProbability);
  }

  /** A response written out in the shape the prompt engine is asked to return. */
  function ResponseFields(b: BossActionResponse): (d: Fields)
    ensures DistinctKeys(d)
  {
    [ ("boss_action", VStr(b.bossAction)),
      ("action_type", VStr(b.actionType)),
      ("intensity", VNum(b.intensity)),
      ("target_area", OptionalStringValue(b.targetArea)),
      ("duration", OptionalNumberValue(b.duration)),
      ("cooldown", OptionalNumberValue(b.cooldown)),
      ("animation_id", OptionalStringValue(b.animationId)),
      ("sound_effects", StringList(b.soundEffects)),
      ("visual_effects", StringList(b.visualEffects)),
      ("damage_multiplier", OptionalNumberValue(b.damageMultiplier)),
      ("success_probability", OptionalNumberValue(b.successProbability)),
      ("reasoning", OptionalStringValue(b.reasoning)) ]
  }

  /** Every field written out for a response is read back by the parser's lookups. */
  lemma WrittenFieldsReadBack(b: BossActionResponse)
    ensures GetOr(ResponseFields(b), "boss_action", VStr(DefaultAction)) == VStr(b.bossAction)
    ensures GetOr(ResponseFields(b), "action_type", VStr(DefaultActionType)) == VStr(b.actionType)
    ensures GetOr(ResponseFields(b), "intensity", VNum(DefaultIntensity)) == VNum(b.intensity)
    ensures GetOr(ResponseFields(b), "target_area", VNull) == OptionalStringValue(b.targetArea)
    ensures GetOr(ResponseFields(b), "duration", VNull) == OptionalNumberValue(b.duration)
    ensures GetOr(ResponseFields(b), "cooldown", VNull) == OptionalNumberValue(b.cooldown)
    ensures GetOr(ResponseFields(b), "animation_id", VNull) == OptionalStringValue(b.animationId)
    ensures GetOr(ResponseFields(b), "sound_effects", VList([])) == StringList(b.soundEffects)
    ensures GetOr(ResponseFields(b), "visual_effects", VList([])) == StringList(b.visualEffects)
    ensures GetOr(ResponseFields(b), "damage_multiplier", VNum(1.0)) == OptionalNumberValue(b.damageMultiplier)
    ensures GetOr(ResponseFields(b), "success_probability", VNull) == OptionalNumberValue(b.successProbability)
    ensures GetOr(ResponseFields(b), "reasoning", VNull) == OptionalStringValue(b.reasoning)
  {
    WrittenActionFields(b);
    WrittenTimingFields(b);
    WrittenEffectFields(b);
    WrittenOutcomeFields(b);
  }

  /** The lookup of the key written at position i finds the value written there, whatever the default. */
  lemma ReadBackAt(b: BossActionResponse, i: nat, default: Value)
    requires i < |ResponseFields(b)|
    ensures GetOr(ResponseFields(b), ResponseFields(b)[i].0, default) == ResponseFields(b)[i].1
  {
    GetDistinct(ResponseFields(b), i);
  }

  lemma WrittenActionFields(b: BossActionResponse)
    ensures GetOr(ResponseFields(b), "boss_action", VStr(DefaultAction)) == VStr(b.bossAction)
    ensures GetOr(ResponseFields(b), "action_type", VStr(DefaultActionType)) == VStr(b.actionType)
    ensures GetOr(ResponseFields(b), "intensity", VNum(DefaultIntensity)) == VNum(b.intensity)
  {
    ReadBackAt(b, 0, VStr(DefaultAction));
    ReadBackAt(b, 1, VStr(DefaultActionType));
    ReadBackAt(b, 2, VNum(DefaultIntensity));
  }

  lemma WrittenTimingFields(b: BossActionResponse)
    ensures GetOr(ResponseFields(b), "target_area", VNull) == OptionalStringValue(b.targetArea)
    ensures GetOr(ResponseFields(b), "duration", VNull) == OptionalNumberValue(b.duration)
    ensures GetOr(ResponseFields(b), "cooldown", VNull) == OptionalNumberValue(b.cooldown)
  {
    ReadBackAt(b, 3, VNull);
    ReadBackAt(b, 4, VNull);
    ReadBackAt(b, 5, VNull);
  }

  lemma WrittenEffectFields(b: BossActionResponse)
    ensures GetOr(ResponseFields(b), "animation_id", VNull) == OptionalStringValue(b.animationId)
    ensures GetOr(ResponseFields(b), "sound_effects", VList([])) == StringList(b.soundEffects)
    ensures GetOr(ResponseFields(b), "visual_effects", VList([])) == StringList(b.visualEffects)
  {
    ReadBackAt(b, 6, VNull);
    ReadBackAt(b, 7, VList([]));
    ReadBackAt(b, 8, VList([]));
  }

  lemma WrittenOutcomeFields(b: BossActionResponse)
    ensures GetOr(ResponseFields(b), "damage_multiplier", VNum(1.0)) == OptionalNumberValue(b.damageMultiplier)
    ensures GetOr(ResponseFields(b), "success_probability", VNull) == OptionalNumberValue(b.successProbability)
    ensures GetOr(ResponseFields(b), "reasoning", VNull) == OptionalStringValue(b.reasoning)
  {
    ReadBackAt(b, 9, VNum(1.0));
    ReadBackAt(b, 10, VNull);
    ReadBackAt(b, 11, VNull);
  }

  /**
    Parsing a well-formed reply loses nothing: a valid response written out
    in the reply shape parses back to itself (the service fills in the
    response time and context count afterwards).
  */
  lemma ParseOfWrittenResponse(b: BossActionResponse)
    requires ValidBossActionResponse(b)
    requires b.responseTime.None? && b.similarContextsUsed == 0
    ensures ParseBossActionResponse(VObject(ResponseFields(b))) == b
  {
    WrittenFieldsReadBack(b);
    AssembleWritten(b);
  }

  // ------------------------------------------------------ generating an action

  /** The prompt engine's answer: status code, raw text, and the body when it is JSON. */
  datatype HttpReply = HttpReply(status: int, text: string, body: Option<Value>)

  const GenerateFailurePrefix := "Failed to generate boss action: "

  /** `int(x)`: truncation toward zero. */
  function Truncate(x: real): (n: int)
    ensures x >= 0.0 ==> n as real <= x < n as real + 1.0
    ensures x < 0.0 ==> n as real - 1.0 < x <= n as real
  {
    if x >= 0.0 then x.Floor else -((-x).Floor)
  }

  /** `str(int(boss_health * 100))`. */
  function BossHealthText(bossHealth: real): string
  {
    Text.IntToString(Truncate(bossHealth * 100.0))
  }

  /** A boss health in [0, 1] is sent as a whole percentage between 0 and 100. */
  lemma BossHealthPercentInRange(bossHealth: real)
    requires InUnit(bossHealth)
    ensures 0 <= Truncate(bossHealth * 100.0) <= 100
    ensures BossHealthText(bossHealth) == Text.NatToString(Truncate(bossHealth * 100.0))
  {
  }

  /** The input values sent with a generation request. */
  function PromptInputs(playerText: string, similarText: string, bossHealth: real, battlePhase: string,
                        environment: Value): (f: Fields)
    ensures |f| == 5 && DistinctKeys(f)
  {
    [ ("player_context", VStr(playerText)),
      ("similar_contexts", VStr(similarText)),
      ("boss_health", VStr(BossHealthText(bossHealth))),
      ("battle_phase", VStr(battlePhase)),
      ("environment", environment) ]
  }

  /** The action a reply yields: a non-200 status or a body that is not a JSON object raises. */
  function ReplyAction(reply: HttpReply): (a: Result<BossActionResponse, string>)
    ensures reply.status != 200 ==> a == Failure(GenerateFailurePrefix + reply.text)
    ensures a.Success? ==> ValidBossActionResponse(a.value)
    ensures a.Success? <==> reply.status == 200 && reply.body.Some? && reply.body.value.VObject?
  {
    if reply.status != 200 then Failure(GenerateFailurePrefix + reply.text)
    else match reply.body
      case Some(VObject(fields)) => Success(ParseBossActionResponse(GetOr(fields, "result", VObject([]))))
      case Some(_) => Failure("reply is not a JSON object")
      case None => Failure("reply is not JSON")
  }

  /** A successful reply without a result gets the default action with no fallback reasoning. */
  lemma ReplyWithoutResult(reply: HttpReply)
    requires reply.status == 200 && reply.body.Some? && reply.body.value.VObject?
    requires Get(reply.body.value.fields, "result").None?
    ensures ReplyAction(reply).Success?
    ensures var b := ReplyAction(reply).value;
            b.bossAction == DefaultAction && b.actionType == DefaultActionType && b.intensity == DefaultIntensity
            && b.reasoning.None? && b.damageMultiplier == Some(1.0)
  {
    MissingCoreFieldsDefault([]);
  }

  /**
    `generate_boss_action`: formats the prompt inputs, which are returned when
    they are sent, and yields the action the engine's reply parses to.
  */
  method GenerateBossAction(p: PlayerContextData, similar: seq<Faiss.SearchResult>, bossHealth: real,
                            battlePhase: string, environment: Value, reply: HttpReply, r: Renderer)
    returns (result: Result<BossActionResponse, string>, sent: Option<Fields>)
    ensures SimilarContextsText(similar, r).None? ==> result.Failure? && sent.None?
    ensures SimilarContextsText(similar, r).Some? ==>
              && sent == Some(PromptInputs(Text.Join(PlayerContextParts(p, r), Separator),
                                           SimilarContextsText(similar, r).value, bossHealth, battlePhase, environment))
              && result == ReplyAction(reply)
    ensures result.Success? ==> ValidBossActionResponse(result.value)
  {
    var playerText := FormatPlayerContext(p, r);
    var similarText := FormatSimilarContexts(similar, r);
    if similarText.None? {
      return Failure("a similar context could not be formatted"), None;
    }
    sent := Some(PromptInputs(playerText, similarText.value, bossHealth, battlePhase, environment));
    result := ReplyAction(reply);
  }
}
