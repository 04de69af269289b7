/**
 * L2 arbitration (backend/l2_gemini.py): the rule-based local fallback
 * verdict, the normalisation of an already-parsed model reply, and the
 * in-memory list of stored results.
 *
 * The model call itself, its prompt and the JSON decoding are not modelled:
 * `Analyze` takes the outcome of the call as a parameter. The float
 * `confidence` field is dropped.
 */
module L2Gemini {
  import opened Base
  import opened Models

  /** `_score_to_action`: 0..30 NORMAL, 31..70 UNDER_SURVEILLANCE, above 70 BANNED. */
  function ScoreToAction(score: int): (a: AccountState)
    ensures a == Normal <==> score <= 30
    ensures a == UnderSurveillance <==> 30 < score <= 70
    ensures a == Banned <==> 70 < score
  {
    if score <= 30 then Normal
    else if score <= 70 then UnderSurveillance
    else Banned
  }

  /** How severe an action is: NORMAL < UNDER_SURVEILLANCE < BANNED. */
  function Severity(a: AccountState): nat {
    match a
    case Normal => 0
    case RestrictedWithdrawal => 1
    case UnderSurveillance => 2
    case Banned => 3
  }

  /** A higher score never yields a milder action. */
  lemma ScoreToActionMonotone(s1: int, s2: int)
    requires s1 <= s2
    ensures Severity(ScoreToAction(s1)) <= Severity(ScoreToAction(s2))
  {
  }

  /** Points for the triggered rules: R1 30, R2 20, R3 25, R4 30. */
  function RulePoints(rules: seq<Rule>): nat {
    (if R1 in rules then 30 else 0) +
    (if R2 in rules then 20 else 0) +
    (if R3 in rules then 25 else 0) +
    (if R4 in rules then 30 else 0)
  }

  /** The additive fallback score, with 15 more for at least 5 distinct senders, capped at 100. */
  function FallbackScore(rules: seq<Rule>, uniqueSenders: int): (score: int)
    ensures 0 <= score <= 100
  {
    Min(RulePoints(rules) + (if uniqueSenders >= 5 then 15 else 0), 100)
  }

  /** More rules and more senders never lower the score. */
  lemma FallbackScoreMonotone(rules: seq<Rule>, more: seq<Rule>, senders: int, moreSenders: int)
    requires forall r :: r in rules ==> r in more
    requires senders <= moreSenders
    ensures FallbackScore(rules, senders) <= FallbackScore(more, moreSenders)
  {
  }

  /** The score is 0 exactly when no rule fired and there were fewer than 5 senders. */
  lemma FallbackScoreZero(rules: seq<Rule>, senders: int)
    ensures FallbackScore(rules, senders) == 0 <==> rules == [] && senders < 5
  {
    if rules != [] {
      assert rules[0] in rules;
      assert rules[0] == R1 || rules[0] == R2 || rules[0] == R3 || rules[0] == R4;
    }
  }

  /**
   * Legitimate up to 30; above it smurfing when at least 3 distinct senders,
   * else direct trading when the slang rule fired, else money laundering.
   */
  function FallbackFraudType(score: int, rules: seq<Rule>, uniqueSenders: int): FraudType {
    if score > 30 then
      if uniqueSenders >= 3 then RmtSmurfing
      else if R4 in rules then RmtDirect
      else MoneyLaundering
    else Legitimate
  }

  function FallbackTag(reason: string): string {
    "[Local fallback: " + reason + "]"
  }

  /** The part of the fallback's `reasoning` after the tag: the rules and the 5-minute figures. */
  function FallbackSummary(rules: seq<Rule>, profile: UserProfile): string {
    " Rules " + PyListRepr(RuleNames(rules)) + " were triggered. " +
    "5-minute total=" + IntToString(profile.totalReceived5min) + "G, " +
    "transactions=" + IntToString(profile.transactionCount5min) + ", " +
    "unique_senders=" + IntToString(profile.uniqueSenders5min) + "."
  }

  /** The text of the fallback's `reasoning` field. */
  function FallbackReasoning(reason: string, rules: seq<Rule>, profile: UserProfile): string {
    FallbackTag(reason) + FallbackSummary(rules, profile)
  }

  /** The reasoning opens with the bracketed fallback reason. */
  lemma ReasoningTagged(reason: string, rules: seq<Rule>, profile: UserProfile)
    ensures IsPrefix(FallbackTag(reason), FallbackReasoning(reason, rules, profile))
  {
    PrefixOfConcat(FallbackTag(reason), FallbackSummary(rules, profile));
  }

  /** `_local_fallback`: the rule-based verdict used whenever the model is not consulted. */
  function LocalFallback(req: AnalysisRequest, reason: string): (r: ArbitrationResult)
    ensures ValidResult(r)
    ensures r.riskScore == FallbackScore(req.triggeredRules, req.userProfile.uniqueSenders5min)
    ensures r.isFraud <==> r.riskScore > 30
    ensures r.recommendedAction == ScoreToAction(r.riskScore)
    ensures r.fraudType == Legitimate <==> r.riskScore <= 30
    ensures r.riskScore > 30 ==>
      r.fraudType == (if req.userProfile.uniqueSenders5min >= 3 then RmtSmurfing
                      else if R4 in req.triggeredRules then RmtDirect
                      else MoneyLaundering)
    ensures r.targetId == req.userProfile.userId
    ensures r.evidenceEventIds == [req.triggerEvent.eventId]
    ensures IsPrefix(FallbackTag(reason), r.reasoning)
  {
    var rules := req.triggeredRules;
    var profile := req.userProfile;
    var score := FallbackScore(rules, profile.uniqueSenders5min);
    var text := FallbackReasoning(reason, rules, profile);
    ReasoningTagged(reason, rules, profile);
    ArbitrationResult(
      profile.userId,
      score > 30,
      score,
      FallbackFraudType(score, rules, profile.uniqueSenders5min),
      ScoreToAction(score),
      text,
      [req.triggerEvent.eventId])
  }

  /** No rule and a single sender: score 0, not fraud, NORMAL, legitimate. */
  lemma FallbackQuietAccount(req: AnalysisRequest, reason: string)
    requires req.triggeredRules == [] && req.userProfile.uniqueSenders5min == 1
    ensures var r := LocalFallback(req, reason);
      r.riskScore == 0 && !r.isFraud && r.recommendedAction == Normal && r.fraudType == Legitimate
  {
    FallbackScoreZero(req.triggeredRules, 1);
  }

  /** R1 and R4 with six senders: 75, fraud, BANNED, smurfing. */
  lemma FallbackSmurfingRing(req: AnalysisRequest, reason: string)
    requires req.triggeredRules == [R1, R4] && req.userProfile.uniqueSenders5min == 6
    ensures var r := LocalFallback(req, reason);
      r.riskScore == 75 && r.isFraud && r.recommendedAction == Banned && r.fraudType == RmtSmurfing
  {
    assert R1 in req.triggeredRules && R4 in req.triggeredRules;
    assert R2 !in req.triggeredRules && R3 !in req.triggeredRules;
  }

  /**
   * A reply decoded from the model's JSON object: each field is present with
   * its expected type, or absent (`data.get` falls back to its default).
   */
  datatype Reply = Reply(
    targetId: Option<string>,
    isFraud: Option<bool>,
    riskScore: Option<int>,
    fraudType: Option<string>,
    recommendedAction: Option<string>,
    reasoning: Option<string>,
    evidenceEventIds: Option<seq<string>>)

  /** `max(0, min(100, x))`. */
  function Clamp(x: int): (c: int)
    ensures 0 <= c <= 100
    ensures 0 <= x <= 100 ==> c == x
    ensures x < 0 ==> c == 0
    ensures x > 100 ==> c == 100
  {
    Max(0, Min(100, x))
  }

  /**
   * The normalisation of `_call_gemini` (lines 173-194): the risk score is
   * clamped into 0..100 (50 when absent), an unknown or absent action becomes
   * UNDER_SURVEILLANCE, an unknown or absent fraud type LEGITIMATE, and the
   * other fields take their defaults.
   */
  function Normalize(reply: Reply, req: AnalysisRequest): (r: ArbitrationResult)
    ensures ValidResult(r)
    ensures reply.riskScore.None? ==> r.riskScore == 50
    ensures reply.riskScore.Some? ==> r.riskScore == Clamp(reply.riskScore.value)
    ensures (reply.recommendedAction.Some? && ParseState(reply.recommendedAction.value).Some?) ==>
      StateName(r.recommendedAction) == reply.recommendedAction.value
    ensures (reply.recommendedAction.None? || ParseState(reply.recommendedAction.value).None?) ==>
      r.recommendedAction == UnderSurveillance
    ensures (reply.fraudType.Some? && ParseFraudType(reply.fraudType.value).Some?) ==>
      FraudTypeName(r.fraudType) == reply.fraudType.value
    ensures (reply.fraudType.None? || ParseFraudType(reply.fraudType.value).None?) ==>
      r.fraudType == Legitimate
    ensures r.targetId == reply.targetId.GetOr(req.userProfile.userId)
    ensures r.isFraud == reply.isFraud.GetOr(true)
    ensures r.reasoning == reply.reasoning.GetOr("Analysis completed")
    ensures r.evidenceEventIds == reply.evidenceEventIds.GetOr([req.triggerEvent.eventId])
  {
    var actionText := reply.recommendedAction.GetOr("UNDER_SURVEILLANCE");
    var action := ParseState(actionText).GetOr(UnderSurveillance);
    var fraudText := reply.fraudType.GetOr("LEGITIMATE");
    var fraudType := ParseFraudType(fraudText).GetOr(Legitimate);
    ArbitrationResult(
      reply.targetId.GetOr(req.userProfile.userId),
      reply.isFraud.GetOr(true),
      Clamp(reply.riskScore.GetOr(50)),
      fraudType,
      action,
      reply.reasoning.GetOr("Analysis completed"),
      reply.evidenceEventIds.GetOr([req.triggerEvent.eventId]))
  }

  /** What the model call produced: an exception, a reply that is not JSON, or a decoded reply. */
  datatype CallOutcome = Failed(message: string) | NotJson | Parsed(reply: Reply)

  /**
   * The verdict `analyze` stores and returns: the fallback when no API key is
   * set, when the call fails or when the reply is not JSON, the normalised
   * reply otherwise.
   */
  function Arbitrate(req: AnalysisRequest, apiKey: string, call: CallOutcome): (r: ArbitrationResult)
    ensures ValidResult(r)
    ensures apiKey == "" ==> r == LocalFallback(req, "GEMINI_API_KEY is not set")
    ensures apiKey != "" && call.Failed? ==> r == LocalFallback(req, "API error: " + call.message)
    ensures apiKey != "" && call.NotJson? ==> r == LocalFallback(req, "JSON parse failed")
    ensures apiKey != "" && call.Parsed? ==> r == Normalize(call.reply, req)
  {
    if apiKey == "" then LocalFallback(req, "GEMINI_API_KEY is not set")
    else match call
      case Failed(message) => LocalFallback(req, "API error: " + message)
      case NotJson => LocalFallback(req, "JSON parse failed")
      case Parsed(reply) => Normalize(reply, req)
  }

  /**
   * Whenever the model is not consulted or its answer is unusable, the
   * verdict is the rule-based one: the fallback score, fraud above 30, the
   * score's action band, the requested user and the trigger event as evidence.
   */
  lemma ArbitrateFallback(req: AnalysisRequest, apiKey: string, call: CallOutcome)
    requires apiKey == "" || !call.Parsed?
    ensures var r := Arbitrate(req, apiKey, call);
      && r.riskScore == FallbackScore(req.triggeredRules, req.userProfile.uniqueSenders5min)
      && (r.isFraud <==> r.riskScore > 30)
      && r.recommendedAction == ScoreToAction(r.riskScore)
      && r.fraudType == FallbackFraudType(r.riskScore, req.triggeredRules, req.userProfile.uniqueSenders5min)
      && r.targetId == req.userProfile.userId
      && r.evidenceEventIds == [req.triggerEvent.eventId]
  {
  }

  class L2Engine {
    var analysisResults: seq<ArbitrationResult>

    /** Every stored result satisfies the 0..100 field constraint. */
    ghost predicate Valid()
      reads this
    {
      forall i :: 0 <= i < |analysisResults| ==> ValidResult(analysisResults[i])
    }

    constructor ()
      ensures Valid() && analysisResults == []
    {
      analysisResults := [];
    }

    /** The in-memory part of `_store_result`: appends exactly one result. */
    method StoreResult(r: ArbitrationResult)
      requires Valid() && ValidResult(r)
      modifies this
      ensures Valid()
      ensures analysisResults == old(analysisResults) + [r]
    {
      analysisResults := analysisResults + [r];
    }

    /** `analyze`: every path stores the verdict it returns, exactly once. */
    method Analyze(req: AnalysisRequest, apiKey: string, call: CallOutcome) returns (r: ArbitrationResult)
      requires Valid()
      modifies this
      ensures Valid()
      ensures r == Arbitrate(req, apiKey, call)
      ensures analysisResults == old(analysisResults) + [r]
    {
      if apiKey == "" {
        r := LocalFallback(req, "GEMINI_API_KEY is not set");
        StoreResult(r);
        return;
      }
      match call {
        case Failed(message) =>
          r := LocalFallback(req, "API error: " + message);
        case NotJson =>
          r := LocalFallback(req, "JSON parse failed");
        case Parsed(reply) =>
          r := Normalize(reply, req);
      }
      StoreResult(r);
    }

    /** The in-memory branch of `get_analyses`: the last `limit` results, newest first. */
    function GetAnalyses(limit: int): (r: seq<ArbitrationResult>)
      requires Valid()
      reads this
      ensures IsNewestFirst(r, analysisResults, limit)
      ensures forall i :: 0 <= i < |r| ==> ValidResult(r[i])
    {
      NewestFirst(analysisResults, limit)
    }
  }
}
