/**
 * The orchestration rules of the backend entry point (backend/main.py): how
 * an L1 hit and an L2 verdict drive the account state machine, the
 * withdrawal status codes with the blocked-withdrawal counter, and the
 * manual-release guard.
 *
 * HTTP routing is not modelled: an endpoint that raises HTTPException
 * returns its status code instead. The background task of
 * `asyncio.create_task` is modelled by returning the analysis request it
 * would run; `RunL2` then runs it to completion in one step.
 *
 * Test/code disagreements, recorded here and not proved: the release tests
 * (tests/test_release_api.py:17-21) expect a RESTRICTED_WITHDRAWAL account to
 * be released; as written the guard admits it but the table has no
 * RESTRICTED_WITHDRAWAL -> NORMAL edge, so the endpoint answers 500. The
 * same missing edge makes a NORMAL verdict on a RESTRICTED_WITHDRAWAL account
 * a refused transition.
 */
module Orchestration {
  import opened Base
  import opened Models
  import opened Accounts
  import opened L1Screening
  import opened L2Gemini

  /** One `sm.transition` call for a fixed user: the requested state and the log texts. */
  datatype Call = Call(target: AccountState, trigger: string, rule: string, evidence: string)

  /** The state a series of transition calls leaves behind. */
  function CallsState(start: AccountState, calls: seq<Call>): AccountState
    decreases |calls|
  {
    if calls == [] then start else CallsState(Attempt(start, calls[0].target), calls[1..])
  }

  /** The log entries a series of transition calls appends: one per accepted call. */
  function CallsLogs(u: string, start: AccountState, calls: seq<Call>): seq<TransitionLog>
    decreases |calls|
  {
    if calls == [] then []
    else
      var c := calls[0];
      (if CanMove(start, c.target) then [TransitionLog(u, start, c.target, c.trigger, c.rule, c.evidence)] else [])
      + CallsLogs(u, Attempt(start, c.target), calls[1..])
  }

  /** The calls are the requested states of `Run`, so both describe the same walk. */
  lemma {:induction false} CallsStateIsRun(start: AccountState, calls: seq<Call>)
    ensures CallsState(start, calls) == Run(start, seq(|calls|, i requires 0 <= i < |calls| => calls[i].target))
    decreases |calls|
  {
    if calls != [] {
      var targets := seq(|calls|, i requires 0 <= i < |calls| => calls[i].target);
      var rest := seq(|calls| - 1, i requires 0 <= i < |calls| - 1 => calls[1..][i].target);
      assert targets[1..] == rest;
      CallsStateIsRun(Attempt(start, calls[0].target), calls[1..]);
    }
  }

  /** `logs` is a walk of allowed edges for `u` from `from` to `to`, one entry per edge. */
  predicate Walk(logs: seq<TransitionLog>, u: string, from: AccountState, to: AccountState)
    decreases |logs|
  {
    if logs == [] then from == to
    else
      logs[0].userId == u && logs[0].fromState == from && CanMove(from, logs[0].toState) &&
      Walk(logs[1..], u, logs[0].toState, to)
  }

  lemma {:induction false} CallsWalk(u: string, start: AccountState, calls: seq<Call>)
    ensures Walk(CallsLogs(u, start, calls), u, start, CallsState(start, calls))
    decreases |calls|
  {
    if calls != [] {
      var c := calls[0];
      var next := Attempt(start, c.target);
      CallsWalk(u, next, calls[1..]);
      var rest := CallsLogs(u, next, calls[1..]);
      var logs := CallsLogs(u, start, calls);
      if CanMove(start, c.target) {
        assert logs == [TransitionLog(u, start, c.target, c.trigger, c.rule, c.evidence)] + rest;
        assert logs[1..] == rest;
      } else {
        assert logs == rest;
      }
    }
  }

  /** A walk, entry by entry: allowed edges for `u`, each starting where the previous one ended. */
  lemma {:induction false} WalkIndexed(logs: seq<TransitionLog>, u: string, from: AccountState, to: AccountState)
    requires Walk(logs, u, from, to)
    ensures forall i :: 0 <= i < |logs| ==> logs[i].userId == u && CanMove(logs[i].fromState, logs[i].toState)
    ensures logs != [] ==> logs[0].fromState == from && logs[|logs| - 1].toState == to
    ensures forall i :: 0 < i < |logs| ==> logs[i].fromState == logs[i - 1].toState
    ensures logs == [] ==> from == to
    decreases |logs|
  {
    if logs != [] {
      var r := logs[1..];
      WalkIndexed(r, u, logs[0].toState, to);
      forall i | 0 < i < |logs|
        ensures logs[i].userId == u && CanMove(logs[i].fromState, logs[i].toState)
        ensures logs[i].fromState == logs[i - 1].toState
      {
        assert logs[i] == r[i - 1];
        if i > 1 {
          assert logs[i - 1] == r[i - 2];
        }
      }
      if r != [] {
        assert logs[|logs| - 1] == r[|r| - 1];
      }
    }
  }

  /** The accepted calls form a chain of allowed edges from `start` to the final state. */
  lemma CallsLogsChained(u: string, start: AccountState, calls: seq<Call>)
    ensures var logs := CallsLogs(u, start, calls);
      && (forall i :: 0 <= i < |logs| ==> logs[i].userId == u && CanMove(logs[i].fromState, logs[i].toState))
      && (logs != [] ==> logs[0].fromState == start && logs[|logs| - 1].toState == CallsState(start, calls))
      && (forall i :: 0 < i < |logs| ==> logs[i].fromState == logs[i - 1].toState)
      && (logs == [] ==> CallsState(start, calls) == start)
  {
    CallsWalk(u, start, calls);
    WalkIndexed(CallsLogs(u, start, calls), u, start, CallsState(start, calls));
  }

  /** Running two series of calls one after the other. */
  lemma {:induction false} CallsAppend(u: string, start: AccountState, first: seq<Call>, second: seq<Call>)
    ensures CallsState(start, first + second) == CallsState(CallsState(start, first), second)
    ensures CallsLogs(u, start, first + second) ==
      CallsLogs(u, start, first) + CallsLogs(u, CallsState(start, first), second)
    decreases |first|
  {
    if first == [] {
      assert first + second == second;
    } else {
      var c := first[0];
      var next := Attempt(start, c.target);
      var head := if CanMove(start, c.target)
        then [TransitionLog(u, start, c.target, c.trigger, c.rule, c.evidence)] else [];
      assert (first + second)[0] == c;
      assert (first + second)[1..] == first[1..] + second;
      CallsAppend(u, next, first[1..], second);
      assert CallsState(start, first) == CallsState(next, first[1..]);
      assert CallsLogs(u, start, first + second) == head + CallsLogs(u, next, first[1..] + second);
      assert CallsLogs(u, start, first) == head + CallsLogs(u, next, first[1..]);
      AppendAssoc(head, CallsLogs(u, next, first[1..]), CallsLogs(u, CallsState(next, first[1..]), second));
    }
  }

  lemma CallsSingle(u: string, start: AccountState, c: Call)
    ensures CallsState(start, [c]) == Attempt(start, c.target)
    ensures CallsLogs(u, start, [c]) ==
      if CanMove(start, c.target) then [TransitionLog(u, start, c.target, c.trigger, c.rule, c.evidence)] else []
  {
    assert [c][1..] == [];
  }

  function RiskText(risk: int): string {
    "(risk_score: " + IntToString(risk) + ")"
  }

  /** The four transition calls `_apply_l2_verdict` can make, with their evidence texts. */
  function IntermediateCall(risk: int): Call {
    Call(UnderSurveillance, "L2_ANALYSIS", "GEMINI_VERDICT", "L2 intermediate transition " + RiskText(risk))
  }

  function BanCall(risk: int): Call {
    Call(Banned, "L2_ANALYSIS", "GEMINI_VERDICT", "RMT confirmed " + RiskText(risk))
  }

  function SurveillanceCall(risk: int): Call {
    Call(UnderSurveillance, "L2_ANALYSIS", "GEMINI_VERDICT", "Requires surveillance " + RiskText(risk))
  }

  function RecoveryCall(risk: int): Call {
    Call(Normal, "L2_ANALYSIS", "GEMINI_VERDICT", "Low-risk auto recovery " + RiskText(risk))
  }

  /**
   * The transition calls `_apply_l2_verdict` makes for a user in state
   * `current`: a BANNED verdict first moves RESTRICTED_WITHDRAWAL to
   * UNDER_SURVEILLANCE and then, from UNDER_SURVEILLANCE, to BANNED; an
   * UNDER_SURVEILLANCE verdict moves only RESTRICTED_WITHDRAWAL; a NORMAL
   * verdict tries NORMAL from RESTRICTED_WITHDRAWAL or UNDER_SURVEILLANCE.
   */
  function VerdictCalls(current: AccountState, verdict: AccountState, risk: int): seq<Call> {
    match verdict
    case Banned =>
      var first := if current == RestrictedWithdrawal
        then [IntermediateCall(risk)]
        else [];
      var mid := CallsState(current, first);
      first + (if mid == UnderSurveillance
        then [BanCall(risk)]
        else [])
    case UnderSurveillance =>
      if current == RestrictedWithdrawal
      then [SurveillanceCall(risk)]
      else []
    case Normal =>
      if current == RestrictedWithdrawal || current == UnderSurveillance
      then [RecoveryCall(risk)]
      else []
    case RestrictedWithdrawal => []
  }

  /**
   * Where each verdict leaves each state. BANNED reaches BANNED from
   * RESTRICTED_WITHDRAWAL and UNDER_SURVEILLANCE; UNDER_SURVEILLANCE changes
   * only RESTRICTED_WITHDRAWAL; NORMAL recovers only UNDER_SURVEILLANCE (the
   * attempt from RESTRICTED_WITHDRAWAL is refused by the table); NORMAL and
   * BANNED accounts never change.
   */
  lemma VerdictOutcome(current: AccountState, verdict: AccountState, risk: int)
    ensures var after := CallsState(current, VerdictCalls(current, verdict, risk));
      && (verdict == Banned ==> after == (if current == Normal then Normal else Banned))
      && (verdict == UnderSurveillance ==> after == (if current == RestrictedWithdrawal then UnderSurveillance else current))
      && (verdict == Normal ==> after == (if current == UnderSurveillance then Normal else current))
      && (verdict == RestrictedWithdrawal ==> after == current)
      && (current == Normal || current == Banned ==> after == current)
  {
    var calls := VerdictCalls(current, verdict, risk);
    if verdict == Banned && current == RestrictedWithdrawal {
      BannedVerdictTwoSteps("", risk);
    } else if verdict == Banned && current == UnderSurveillance {
      assert CallsState(current, []) == current;
      assert calls == [calls[0]];
      CallsSingle("", current, calls[0]);
    } else if |calls| == 1 {
      assert calls == [calls[0]];
      CallsSingle("", current, calls[0]);
    } else {
      assert calls == [];
    }
  }

  /** A BANNED verdict on a RESTRICTED_WITHDRAWAL account logs two entries, through UNDER_SURVEILLANCE. */
  lemma BannedVerdictTwoSteps(u: string, risk: int)
    ensures var logs := CallsLogs(u, RestrictedWithdrawal, VerdictCalls(RestrictedWithdrawal, Banned, risk));
      && |logs| == 2
      && logs[0].fromState == RestrictedWithdrawal && logs[0].toState == UnderSurveillance
      && logs[1].fromState == UnderSurveillance && logs[1].toState == Banned
      && CallsState(RestrictedWithdrawal, VerdictCalls(RestrictedWithdrawal, Banned, risk)) == Banned
  {
    var c1 := IntermediateCall(risk);
    var c2 := BanCall(risk);
    CallsSingle(u, RestrictedWithdrawal, c1);
    assert VerdictCalls(RestrictedWithdrawal, Banned, risk) == [c1] + [c2];
    CallsAppend(u, RestrictedWithdrawal, [c1], [c2]);
    CallsSingle(u, UnderSurveillance, c2);
  }

  /** `_withdraw_status`: 200 for NORMAL, 403 for BANNED, 423 for the two restricted states. */
  function StatusFor(s: AccountState): (code: int)
    ensures code == 200 <==> s == Normal
    ensures code == 403 <==> s == Banned
    ensures code == 423 <==> s == RestrictedWithdrawal || s == UnderSurveillance
  {
    match s
    case Normal => 200
    case Banned => 403
    case _ => 423
  }

  function StatusMessage(s: AccountState): string {
    match s
    case Normal => "Withdrawal completed"
    case Banned => "Account is banned"
    case _ => "Withdrawal is restricted"
  }

  /** The earlier get_or_create of `u` is the only change to the machine. */
  twostate predicate OnlyRegistered(sm: StateMachine, u: string)
    reads sm
  {
    && sm.accounts == old(sm.accounts)[u := old(sm.StateOf(u))]
    && sm.ids == (if u in old(sm.accounts) then old(sm.ids) else old(sm.ids) + [u])
    && sm.transitionLogs == old(sm.transitionLogs)
  }

  method WithdrawStatus(sm: StateMachine, u: string) returns (code: int, message: string)
    requires sm.Valid()
    modifies sm
    ensures sm.Valid()
    ensures code == StatusFor(old(sm.StateOf(u))) && message == StatusMessage(old(sm.StateOf(u)))
    ensures OnlyRegistered(sm, u) && sm.blockedWithdrawals == old(sm.blockedWithdrawals)
  {
    var s := sm.GetOrCreate(u);
    if s == Normal {
      return 200, "Withdrawal completed";
    }
    if s == Banned {
      return 403, "Account is banned";
    }
    return 423, "Withdrawal is restricted";
  }

  /** `_record_blocked_withdrawal`: the counter rises by one exactly for a refused withdrawal. */
  method RecordBlockedWithdrawal(sm: StateMachine, code: int)
    requires sm.Valid()
    modifies sm
    ensures sm.Valid()
    ensures sm.blockedWithdrawals == old(sm.blockedWithdrawals) + (if code != 200 then 1 else 0)
    ensures sm.accounts == old(sm.accounts) && sm.ids == old(sm.ids) && sm.transitionLogs == old(sm.transitionLogs)
  {
    if code != 200 {
      sm.blockedWithdrawals := sm.blockedWithdrawals + 1;
    }
  }

  /** The withdraw endpoint: the status, counting every refusal. */
  method Withdraw(sm: StateMachine, u: string) returns (code: int)
    requires sm.Valid()
    modifies sm
    ensures sm.Valid()
    ensures code == StatusFor(old(sm.StateOf(u)))
    ensures (code == 200) == (old(sm.StateOf(u)) == Normal)
    ensures OnlyRegistered(sm, u)
    ensures sm.blockedWithdrawals == old(sm.blockedWithdrawals) + (if code != 200 then 1 else 0)
  {
    var message;
    code, message := WithdrawStatus(sm, u);
    RecordBlockedWithdrawal(sm, code);
  }

  /**
   * `release_user`: 400 unless the account is RESTRICTED_WITHDRAWAL or
   * UNDER_SURVEILLANCE, with nothing changed but the get_or_create insert;
   * otherwise a MANUAL_RELEASE transition to NORMAL, answered 200 when the
   * table accepts it and 500 when it refuses.
   */
  method ReleaseUser(sm: StateMachine, u: string) returns (code: int)
    requires sm.Valid()
    modifies sm
    ensures sm.Valid()
    ensures var s := old(sm.StateOf(u));
      s != RestrictedWithdrawal && s != UnderSurveillance ==> code == 400 && OnlyRegistered(sm, u)
    ensures old(sm.StateOf(u)) == UnderSurveillance ==>
      && code == 200
      && sm.accounts == old(sm.accounts)[u := Normal]
      && sm.ids == old(sm.ids)
      && sm.transitionLogs == old(sm.transitionLogs) +
           [TransitionLog(u, UnderSurveillance, Normal, "MANUAL_RELEASE", "OPERATOR", "Manual release")]
    ensures old(sm.StateOf(u)) == RestrictedWithdrawal ==> code == 500 && OnlyRegistered(sm, u)
    ensures sm.blockedWithdrawals == old(sm.blockedWithdrawals)
  {
    var current := sm.GetOrCreate(u);
    if current != RestrictedWithdrawal && current != UnderSurveillance {
      return 400;
    }
    ghost var registered := sm.accounts;
    var ok := sm.Transition(u, Normal, "MANUAL_RELEASE", "OPERATOR", "Manual release");
    if !ok {
      UpdateSame(registered, u);
      return 500;
    }
    UpdateTwice(old(sm.accounts), u, current, Normal);
    return 200;
  }

  /** One more call: its effect on the state and the log, relative to the calls before it. */
  lemma CallStep(u: string, start: AccountState, done: seq<Call>, c: Call)
    ensures CallsState(start, done + [c]) == Attempt(CallsState(start, done), c.target)
    ensures CallsLogs(u, start, done + [c]) == CallsLogs(u, start, done) +
      if CanMove(CallsState(start, done), c.target)
      then [TransitionLog(u, CallsState(start, done), c.target, c.trigger, c.rule, c.evidence)] else []
  {
    CallsAppend(u, start, done, [c]);
    CallsSingle(u, CallsState(start, done), c);
  }

  /**
   * One `sm.transition` call of the series `_apply_l2_verdict` makes for `u`;
   * `done` is the ghost record of the calls made so far from `start`.
   */
  method PerformCall(sm: StateMachine, u: string, c: Call, ghost start: AccountState, ghost done: seq<Call>,
                     ghost accounts0: map<string, AccountState>, ghost logs0: seq<TransitionLog>)
    requires sm.Valid() && u in sm.accounts
    requires sm.accounts == accounts0[u := CallsState(start, done)]
    requires sm.transitionLogs == logs0 + CallsLogs(u, start, done)
    modifies sm
    ensures sm.Valid()
    ensures sm.accounts == accounts0[u := CallsState(start, done + [c])]
    ensures sm.transitionLogs == logs0 + CallsLogs(u, start, done + [c])
    ensures sm.ids == old(sm.ids) && sm.blockedWithdrawals == old(sm.blockedWithdrawals)
  {
    ghost var before := CallsState(start, done);
    ghost var after := CallsState(start, done + [c]);
    ghost var entry := if CanMove(before, c.target)
      then [TransitionLog(u, before, c.target, c.trigger, c.rule, c.evidence)] else [];
    CallStep(u, start, done, c);
    var ok := sm.Transition(u, c.target, c.trigger, c.rule, c.evidence);
    assert sm.accounts == accounts0[u := before][u := after];
    UpdateTwice(accounts0, u, before, after);
    AppendAssoc(logs0, CallsLogs(u, start, done), entry);
  }

  /** The BANNED verdict's calls spelled out for each starting state. */
  lemma BannedCalls(u: string, start: AccountState, risk: int)
    ensures var c1 := IntermediateCall(risk);
      var c2 := BanCall(risk);
      var first := if start == RestrictedWithdrawal then [c1] else [];
      && CallsState(start, first) == (if start == RestrictedWithdrawal then UnderSurveillance else start)
      && VerdictCalls(start, Banned, risk) == first + (if start == RestrictedWithdrawal || start == UnderSurveillance then [c2] else [])
  {
    var c1 := IntermediateCall(risk);
    CallsSingle(u, RestrictedWithdrawal, c1);
  }

  /** `get_or_create` on a registered user: a pure lookup. */
  method Lookup(sm: StateMachine, u: string) returns (s: AccountState)
    requires sm.Valid() && u in sm.accounts
    modifies sm
    ensures sm.Valid() && u in sm.accounts && s == sm.accounts[u]
    ensures sm.accounts == old(sm.accounts) && sm.ids == old(sm.ids)
    ensures sm.transitionLogs == old(sm.transitionLogs) && sm.blockedWithdrawals == old(sm.blockedWithdrawals)
  {
    s := sm.GetOrCreate(u);
    UpdateSame(old(sm.accounts), u);
  }

  /**
   * The BANNED branch of `_apply_l2_verdict` for a registered user: the
   * intermediate move from RESTRICTED_WITHDRAWAL, a fresh lookup, then the
   * move from UNDER_SURVEILLANCE.
   */
  method ApplyBanned(sm: StateMachine, u: string, risk: int, ghost start: AccountState,
                     ghost accounts0: map<string, AccountState>, ghost logs0: seq<TransitionLog>)
    requires sm.Valid() && u in sm.accounts
    requires sm.accounts == accounts0[u := start] && sm.transitionLogs == logs0
    modifies sm
    ensures sm.Valid()
    ensures sm.accounts == accounts0[u := CallsState(start, VerdictCalls(start, Banned, risk))]
    ensures sm.transitionLogs == logs0 + CallsLogs(u, start, VerdictCalls(start, Banned, risk))
    ensures sm.ids == old(sm.ids) && sm.blockedWithdrawals == old(sm.blockedWithdrawals)
  {
    ghost var c1 := IntermediateCall(risk);
    ghost var c2 := BanCall(risk);
    ghost var done: seq<Call> := [];
    BannedCalls(u, start, risk);
    assert sm.transitionLogs == logs0 + CallsLogs(u, start, done);
    var current := Lookup(sm, u);
    if current == RestrictedWithdrawal {
      var c := IntermediateCall(risk);
      PerformCall(sm, u, c, start, done, accounts0, logs0);
      done := done + [c];
    }
    assert done == if start == RestrictedWithdrawal then [c1] else [];
    current := Lookup(sm, u);
    if current == UnderSurveillance {
      var c := BanCall(risk);
      PerformCall(sm, u, c, start, done, accounts0, logs0);
      done := done + [c];
    }
    assert done == VerdictCalls(start, Banned, risk);
  }

  /**
   * `_apply_l2_verdict`: the user's state becomes the end of the verdict's
   * transition calls and exactly the accepted calls are logged.
   */
  method ApplyL2Verdict(sm: StateMachine, u: string, verdict: AccountState, risk: int)
    requires sm.Valid()
    modifies sm
    ensures sm.Valid()
    ensures var calls := VerdictCalls(old(sm.StateOf(u)), verdict, risk);
      && sm.accounts == old(sm.accounts)[u := CallsState(old(sm.StateOf(u)), calls)]
      && sm.transitionLogs == old(sm.transitionLogs) + CallsLogs(u, old(sm.StateOf(u)), calls)
    ensures sm.ids == (if u in old(sm.accounts) then old(sm.ids) else old(sm.ids) + [u])
    ensures sm.blockedWithdrawals == old(sm.blockedWithdrawals)
  {
    ghost var start, accounts0, logs0 := sm.StateOf(u), sm.accounts, sm.transitionLogs;
    ghost var done: seq<Call> := [];
    var current := sm.GetOrCreate(u);
    if verdict == Banned {
      ApplyBanned(sm, u, risk, start, accounts0, logs0);
    } else {
      assert sm.transitionLogs == logs0 + CallsLogs(u, start, done);
      if verdict == UnderSurveillance {
        if current == RestrictedWithdrawal {
          var c := SurveillanceCall(risk);
          PerformCall(sm, u, c, start, done, accounts0, logs0);
          done := done + [c];
        }
      } else if verdict == Normal {
        if current == RestrictedWithdrawal || current == UnderSurveillance {
          var c := RecoveryCall(risk);
          PerformCall(sm, u, c, start, done, accounts0, logs0);
          done := done + [c];
        }
      }
      assert done == VerdictCalls(start, verdict, risk);
    }
  }

  /** The log entry of an L1 hit on a NORMAL target. */
  function L1Log(u: string, rules: seq<Rule>): TransitionLog {
    TransitionLog(u, Normal, RestrictedWithdrawal, "L1_SCREENING",
                  Join(RuleNames(rules), ","), "L1 rule triggered: " + PyListRepr(RuleNames(rules)))
  }

  /** The two `get_or_create` calls that open `_process_event_with_options`. */
  method Register(sm: StateMachine, actor: string, target: string)
    requires sm.Valid()
    modifies sm
    ensures sm.Valid() && actor in sm.accounts && target in sm.accounts
    ensures sm.accounts == old(sm.accounts)[actor := old(sm.StateOf(actor))][target := old(sm.StateOf(target))]
    ensures sm.ids == old(sm.ids) + (if actor in old(sm.accounts) then [] else [actor])
                       + (if target in old(sm.accounts) || target == actor then [] else [target])
    ensures sm.transitionLogs == old(sm.transitionLogs) && sm.blockedWithdrawals == old(sm.blockedWithdrawals)
  {
    var first := sm.GetOrCreate(actor);
    ghost var mid := sm.accounts;
    assert target in mid <==> target in old(sm.accounts) || target == actor;
    assert (if target in mid then mid[target] else Normal) == old(sm.StateOf(target));
    var second := sm.GetOrCreate(target);
  }

  /**
   * The L1 step: a screened result with a recommended action moves a NORMAL
   * target to RESTRICTED_WITHDRAWAL, logged with the rule names.
   */
  method L1Step(sm: StateMachine, u: string, res: ScreeningResult)
    requires sm.Valid() && u in sm.accounts
    modifies sm
    ensures sm.Valid() && u in sm.accounts
    ensures var moved := res.screened && res.recommendedAction.Some? && old(sm.accounts[u]) == Normal;
      && sm.accounts == old(sm.accounts)[u := if moved then RestrictedWithdrawal else old(sm.accounts[u])]
      && sm.transitionLogs == old(sm.transitionLogs) + (if moved then [L1Log(u, res.triggeredRules)] else [])
    ensures sm.ids == old(sm.ids) && sm.blockedWithdrawals == old(sm.blockedWithdrawals)
  {
    if res.screened && res.recommendedAction.Some? {
      var current := Lookup(sm, u);
      if current == Normal {
        var _ := sm.Transition(u, RestrictedWithdrawal, "L1_SCREENING",
                               Join(RuleNames(res.triggeredRules), ","),
                               "L1 rule triggered: " + PyListRepr(RuleNames(res.triggeredRules)));
      } else {
        UpdateSame(sm.accounts, u);
      }
    } else {
      UpdateSame(sm.accounts, u);
    }
  }

  /**
   * The L2 scheduling condition, with its short-circuit lookup; the target
   * is registered by then, so its `get_or_create` only reads the stored state.
   */
  method ShouldScheduleL2(sm: StateMachine, u: string, res: ScreeningResult, scheduleL2: bool)
    returns (schedule: bool)
    requires u in sm.accounts
    ensures schedule <==> scheduleL2 && (res.needsL2 || (res.screened && sm.accounts[u] != Normal))
  {
    schedule := false;
    if scheduleL2 {
      if res.needsL2 {
        schedule := true;
      } else if res.screened {
        var s := sm.accounts[u];
        schedule := s != Normal;
      }
    }
  }

  /** Registering both parties, then screening the event; the L1 engine and the accounts are disjoint. */
  method RegisterAndScreen(sm: StateMachine, l1: L1Engine, e: Event, now: int) returns (res: ScreeningResult)
    requires sm.Valid() && l1.Valid()
    modifies sm, l1.Repr
    ensures sm.Valid() && l1.Valid() && fresh(l1.Repr - old(l1.Repr))
    ensures l1.windows == old(l1.windows)[e.targetId := Purged(old(l1.WindowOf(e.targetId)) + [e], now - WindowSeconds)]
    ensures l1.recentEvents == Pushed(old(l1.recentEvents), e)
    ensures res == Screening(SumAmounts(l1.windows[e.targetId]), |l1.windows[e.targetId]|, e)
    ensures l1.l1FlagCount == old(l1.l1FlagCount) + (if res.screened then 1 else 0)
    ensures res.screened <==> res.recommendedAction.Some?
    ensures res.needsL2 ==> res.screened
    ensures e.actorId in sm.accounts && e.targetId in sm.accounts
    ensures sm.accounts == old(sm.accounts)[e.actorId := old(sm.StateOf(e.actorId))][e.targetId := old(sm.StateOf(e.targetId))]
    ensures sm.ids == old(sm.ids) + (if e.actorId in old(sm.accounts) then [] else [e.actorId])
                       + (if e.targetId in old(sm.accounts) || e.targetId == e.actorId then [] else [e.targetId])
    ensures sm.transitionLogs == old(sm.transitionLogs) && sm.blockedWithdrawals == old(sm.blockedWithdrawals)
  {
    assert sm !in l1.Repr;
    Register(sm, e.actorId, e.targetId);
    res := l1.Screen(e, now);
    ScreeningRules(SumAmounts(l1.windows[e.targetId]), |l1.windows[e.targetId]|, e);
  }

  /**
   * The L1 part of `_process_event_with_options`: both parties are
   * registered, the event is screened, and a screened event moves a NORMAL
   * target to RESTRICTED_WITHDRAWAL while leaving any other state alone.
   */
  method ScreenEvent(sm: StateMachine, l1: L1Engine, e: Event, now: int) returns (res: ScreeningResult)
    requires sm.Valid() && l1.Valid()
    modifies sm, l1.Repr
    ensures sm.Valid() && l1.Valid() && fresh(l1.Repr - old(l1.Repr))
    ensures l1.windows == old(l1.windows)[e.targetId := Purged(old(l1.WindowOf(e.targetId)) + [e], now - WindowSeconds)]
    ensures l1.recentEvents == Pushed(old(l1.recentEvents), e)
    ensures res == Screening(SumAmounts(l1.windows[e.targetId]), |l1.windows[e.targetId]|, e)
    ensures l1.l1FlagCount == old(l1.l1FlagCount) + (if res.screened then 1 else 0)
    ensures e.actorId in sm.accounts && e.targetId in sm.accounts
    ensures var before := old(sm.StateOf(e.targetId));
      var moved := res.screened && before == Normal;
      && sm.accounts == old(sm.accounts)[e.actorId := old(sm.StateOf(e.actorId))]
                                        [e.targetId := if moved then RestrictedWithdrawal else before]
      && sm.transitionLogs == old(sm.transitionLogs) + (if moved then [L1Log(e.targetId, res.triggeredRules)] else [])
    ensures sm.ids == old(sm.ids) + (if e.actorId in old(sm.accounts) then [] else [e.actorId])
                       + (if e.targetId in old(sm.accounts) || e.targetId == e.actorId then [] else [e.targetId])
    ensures sm.blockedWithdrawals == old(sm.blockedWithdrawals)
    ensures res.screened ==> sm.accounts[e.targetId] != Normal
    ensures res.needsL2 ==> res.screened
  {
    ghost var registered := old(sm.accounts)[e.actorId := old(sm.StateOf(e.actorId))];
    res := RegisterAndScreen(sm, l1, e, now);
    assert sm !in l1.Repr;
    ghost var before := sm.accounts[e.targetId];
    L1Step(sm, e.targetId, res);
    ghost var moved := res.screened && before == Normal;
    UpdateTwice(registered, e.targetId, before, if moved then RestrictedWithdrawal else before);
  }

  /**
   * `_process_event_with_options`: the L1 part, then the L2 scheduling
   * condition; the analysis request is built exactly when L2 is scheduled,
   * which happens exactly for screened events.
   */
  method ProcessEvent(sm: StateMachine, l1: L1Engine, e: Event, now: int, scheduleL2: bool)
    returns (res: ScreeningResult, request: Option<AnalysisRequest>)
    requires sm.Valid() && l1.Valid()
    modifies sm, l1.Repr
    ensures sm.Valid() && l1.Valid() && fresh(l1.Repr - old(l1.Repr))
    ensures l1.windows == old(l1.windows)[e.targetId := Purged(old(l1.WindowOf(e.targetId)) + [e], now - WindowSeconds)]
    ensures l1.recentEvents == Pushed(old(l1.recentEvents), e)
    ensures res == Screening(SumAmounts(l1.windows[e.targetId]), |l1.windows[e.targetId]|, e)
    ensures l1.l1FlagCount == old(l1.l1FlagCount) + (if res.screened then 1 else 0)
    ensures e.actorId in sm.accounts && e.targetId in sm.accounts
    ensures var before := old(sm.StateOf(e.targetId));
      var moved := res.screened && before == Normal;
      && sm.accounts == old(sm.accounts)[e.actorId := old(sm.StateOf(e.actorId))]
                                        [e.targetId := if moved then RestrictedWithdrawal else before]
      && sm.transitionLogs == old(sm.transitionLogs) + (if moved then [L1Log(e.targetId, res.triggeredRules)] else [])
    ensures sm.ids == old(sm.ids) + (if e.actorId in old(sm.accounts) then [] else [e.actorId])
                       + (if e.targetId in old(sm.accounts) || e.targetId == e.actorId then [] else [e.targetId])
    ensures sm.blockedWithdrawals == old(sm.blockedWithdrawals)
    ensures res.screened ==> sm.accounts[e.targetId] != Normal
    ensures request.Some? <==> scheduleL2 && (res.needsL2 || (res.screened && sm.accounts[e.targetId] != Normal))
    ensures request.Some? <==> scheduleL2 && res.screened
    ensures request.Some? ==>
      request.value == l1.BuildAnalysisRequest(e.targetId, e, res.triggeredRules, sm.accounts[e.targetId])
  {
    res := ScreenEvent(sm, l1, e, now);
    var schedule := ShouldScheduleL2(sm, e.targetId, res, scheduleL2);
    if schedule {
      var currentState := sm.accounts[e.targetId];
      request := Some(l1.BuildAnalysisRequest(e.targetId, e, res.triggeredRules, currentState));
    } else {
      request := None;
    }
  }

  /** `_run_l2`: analyse the request, store the verdict, and apply it to its target. */
  method RunL2(sm: StateMachine, l2: L2Engine, req: AnalysisRequest, apiKey: string, call: CallOutcome)
    returns (verdict: ArbitrationResult)
    requires sm.Valid() && l2.Valid()
    modifies sm, l2
    ensures sm.Valid() && l2.Valid()
    ensures verdict == Arbitrate(req, apiKey, call)
    ensures l2.analysisResults == old(l2.analysisResults) + [verdict]
    ensures var u := verdict.targetId;
      var calls := VerdictCalls(old(sm.StateOf(u)), verdict.recommendedAction, verdict.riskScore);
      && sm.accounts == old(sm.accounts)[u := CallsState(old(sm.StateOf(u)), calls)]
      && sm.transitionLogs == old(sm.transitionLogs) + CallsLogs(u, old(sm.StateOf(u)), calls)
    ensures sm.ids == (if verdict.targetId in old(sm.accounts) then old(sm.ids) else old(sm.ids) + [verdict.targetId])
    ensures sm.blockedWithdrawals == old(sm.blockedWithdrawals)
  {
    verdict := l2.Analyze(req, apiKey, call);
    ApplyL2Verdict(sm, verdict.targetId, verdict.recommendedAction, verdict.riskScore);
  }
}
