/**
 * The backend's data model (backend/models.py): the four account states, the
 * fraud types, trade events with their defaulted fields, user profiles,
 * analysis requests, screening and arbitration results, transition logs and
 * graph records. Strings stand for Python `str`, `int` for Python's unbounded
 * integers.
 */
module Models {
  import opened Base

  datatype AccountState = Normal | RestrictedWithdrawal | UnderSurveillance | Banned

  /** The enum's string value. */
  function StateName(s: AccountState): string {
    match s
    case Normal => "NORMAL"
    case RestrictedWithdrawal => "RESTRICTED_WITHDRAWAL"
    case UnderSurveillance => "UNDER_SURVEILLANCE"
    case Banned => "BANNED"
  }

  /** `AccountState(text)`: lookup by value; None where Python raises ValueError. */
  function ParseState(text: string): (r: Option<AccountState>)
    ensures r.Some? ==> StateName(r.value) == text
  {
    if text == "NORMAL" then Some(Normal)
    else if text == "RESTRICTED_WITHDRAWAL" then Some(RestrictedWithdrawal)
    else if text == "UNDER_SURVEILLANCE" then Some(UnderSurveillance)
    else if text == "BANNED" then Some(Banned)
    else None
  }

  lemma ParseStateName(s: AccountState)
    ensures ParseState(StateName(s)) == Some(s)
  {
  }

  datatype FraudType = RmtSmurfing | RmtDirect | MoneyLaundering | Legitimate

  function FraudTypeName(f: FraudType): string {
    match f
    case RmtSmurfing => "RMT_SMURFING"
    case RmtDirect => "RMT_DIRECT"
    case MoneyLaundering => "MONEY_LAUNDERING"
    case Legitimate => "LEGITIMATE"
  }

  /** `FraudType(text)`: None where Python raises ValueError. */
  function ParseFraudType(text: string): (r: Option<FraudType>)
    ensures r.Some? ==> FraudTypeName(r.value) == text
  {
    if text == "RMT_SMURFING" then Some(RmtSmurfing)
    else if text == "RMT_DIRECT" then Some(RmtDirect)
    else if text == "MONEY_LAUNDERING" then Some(MoneyLaundering)
    else if text == "LEGITIMATE" then Some(Legitimate)
    else None
  }

  lemma ParseFraudTypeName(f: FraudType)
    ensures ParseFraudType(FraudTypeName(f)) == Some(f)
  {
  }

  /**
   * GameEventLog with its nested ActionDetails and ContextMetadata flattened.
   * The ISO timestamp is modelled as whole seconds; None stands for a text
   * that does not parse.
   */
  datatype Event = Event(
    eventId: string,
    timestamp: Option<int>,
    eventType: string,
    actorId: string,
    targetId: string,
    amount: int,
    itemId: Option<string>,
    marketAvgPrice: Option<int>,
    actorLevel: int,
    accountAgeDays: int,
    chatLog: Option<string>)

  /** An event built with every field left at its default, stamped `now`. */
  function DefaultEvent(eventId: string, actorId: string, targetId: string, now: int): (e: Event)
    ensures e.eventType == "TRADE" && e.amount == 0 && e.actorLevel == 1 && e.accountAgeDays == 0
    ensures e.timestamp == Some(now) && e.itemId.None? && e.marketAvgPrice.None? && e.chatLog.None?
  {
    Event(eventId, Some(now), "TRADE", actorId, targetId, 0, None, None, 1, 0, None)
  }

  datatype UserProfile = UserProfile(
    userId: string,
    currentState: AccountState,
    totalReceived5min: int,
    transactionCount5min: int,
    uniqueSenders5min: int)

  /** The four L1 rules; triggered lists hold them in evaluation order. */
  datatype Rule = R1 | R2 | R3 | R4

  function RuleIndex(r: Rule): nat {
    match r
    case R1 => 1
    case R2 => 2
    case R3 => 3
    case R4 => 4
  }

  /** Rules in strictly increasing R1..R4 order: fixed order, no duplicates. */
  predicate InRuleOrder(rules: seq<Rule>) {
    forall i, j :: 0 <= i < j < |rules| ==> RuleIndex(rules[i]) < RuleIndex(rules[j])
  }

  /** The rule's name as it appears in `triggered_rules`. */
  function RuleName(r: Rule): string {
    match r
    case R1 => "R1"
    case R2 => "R2"
    case R3 => "R3"
    case R4 => "R4"
  }

  function RuleNames(rules: seq<Rule>): (names: seq<string>)
    ensures |names| == |rules| && forall i :: 0 <= i < |rules| ==> names[i] == RuleName(rules[i])
  {
    seq(|rules|, i requires 0 <= i < |rules| => RuleName(rules[i]))
  }

  datatype AnalysisRequest = AnalysisRequest(
    triggerEvent: Event,
    relatedEvents: seq<Event>,
    triggeredRules: seq<Rule>,
    userProfile: UserProfile)

  datatype ScreeningResult = ScreeningResult(
    screened: bool,
    triggeredRules: seq<Rule>,
    recommendedAction: Option<AccountState>,
    needsL2: bool)

  /** ArbitrationResult without its float `confidence`. */
  datatype ArbitrationResult = ArbitrationResult(
    targetId: string,
    isFraud: bool,
    riskScore: int,
    fraudType: FraudType,
    recommendedAction: AccountState,
    reasoning: string,
    evidenceEventIds: seq<string>)

  /** The pydantic field constraint `risk_score: int = Field(ge=0, le=100)`. */
  predicate ValidResult(r: ArbitrationResult) {
    0 <= r.riskScore <= 100
  }

  /** TransitionLog without its wall-clock timestamp. */
  datatype TransitionLog = TransitionLog(
    userId: string,
    fromState: AccountState,
    toState: AccountState,
    trigger: string,
    triggeredByRule: string,
    evidenceSummary: string)

  datatype GraphNode = GraphNode(id: string, state: AccountState, labelText: string)

  datatype GraphLink = GraphLink(source: string, target: string, amount: int, count: int)
}
