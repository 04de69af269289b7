/**
 * The account state machine (backend/state_machine.py): the table of allowed
 * moves between the four account states, and the StateMachine object holding
 * the per-user state dictionary (with its insertion order), the append-only
 * transition log and the blocked-withdrawal counter.
 *
 * Test/code disagreements, recorded here and not proved: the tests call an
 * async `get_or_create`, a `reset` and an `apply_l2_verdict` method, none of
 * which the code shown has, and they expect a RESTRICTED_WITHDRAWAL -> NORMAL
 * edge (tests/test_state_machine.py:49-54); the table below, as written,
 * allows NORMAL only from UNDER_SURVEILLANCE.
 */
module Accounts {
  import opened Base
  import opened Models

  /** ALLOWED_TRANSITIONS. */
  function Allowed(from: AccountState): set<AccountState> {
    match from
    case Normal => {RestrictedWithdrawal}
    case RestrictedWithdrawal => {UnderSurveillance}
    case UnderSurveillance => {Banned, Normal}
    case Banned => {}
  }

  predicate CanMove(from: AccountState, to: AccountState) {
    to in Allowed(from)
  }

  /** The table holds exactly four edges. */
  lemma AllowedEdges(from: AccountState, to: AccountState)
    ensures CanMove(from, to) <==>
      || (from == Normal && to == RestrictedWithdrawal)
      || (from == RestrictedWithdrawal && to == UnderSurveillance)
      || (from == UnderSurveillance && to == Banned)
      || (from == UnderSurveillance && to == Normal)
  {
  }

  /** The state one `transition` call leaves behind: the target if allowed, else unchanged. */
  function Attempt(current: AccountState, target: AccountState): AccountState {
    if CanMove(current, target) then target else current
  }

  /** The state after a series of `transition` calls for one user, in order. */
  function Run(start: AccountState, targets: seq<AccountState>): AccountState
    decreases |targets|
  {
    if targets == [] then start else Run(Attempt(start, targets[0]), targets[1..])
  }

  /** BANNED is absorbing: no series of transition calls leaves it. */
  lemma {:induction false} BannedIsAbsorbing(targets: seq<AccountState>)
    ensures Run(Banned, targets) == Banned
    decreases |targets|
  {
    if targets != [] {
      assert Attempt(Banned, targets[0]) == Banned;
      BannedIsAbsorbing(targets[1..]);
    }
  }

  /** The state a user's log replays to: the to-state of its latest entry, else NORMAL. */
  ghost function LastState(logs: seq<TransitionLog>, u: string): AccountState
    decreases |logs|
  {
    if logs == [] then Normal
    else if logs[|logs| - 1].userId == u then logs[|logs| - 1].toState
    else LastState(logs[..|logs| - 1], u)
  }

  /** Every entry is an allowed edge that starts where the user's earlier entries left it. */
  ghost predicate Chained(logs: seq<TransitionLog>) {
    forall i :: 0 <= i < |logs| ==>
      logs[i].fromState == LastState(logs[..i], logs[i].userId) &&
      CanMove(logs[i].fromState, logs[i].toState)
  }

  lemma LastStateAppend(logs: seq<TransitionLog>, e: TransitionLog, u: string)
    ensures LastState(logs + [e], u) == if u == e.userId then e.toState else LastState(logs, u)
  {
    assert (logs + [e])[..|logs|] == logs;
  }

  /** Appending an allowed entry that starts at the user's replayed state keeps the chain. */
  lemma ChainedAppend(logs: seq<TransitionLog>, e: TransitionLog)
    requires Chained(logs)
    requires e.fromState == LastState(logs, e.userId) && CanMove(e.fromState, e.toState)
    ensures Chained(logs + [e])
  {
    var logs' := logs + [e];
    forall i | 0 <= i < |logs'|
      ensures logs'[i].fromState == LastState(logs'[..i], logs'[i].userId)
      ensures CanMove(logs'[i].fromState, logs'[i].toState)
    {
      if i < |logs| {
        assert logs'[..i] == logs[..i];
      } else {
        assert logs'[..i] == logs;
      }
    }
  }

  lemma {:induction false} LastStateUntouched(logs: seq<TransitionLog>, u: string)
    requires forall i :: 0 <= i < |logs| ==> logs[i].userId != u
    ensures LastState(logs, u) == Normal
    decreases |logs|
  {
    if logs != [] {
      LastStateUntouched(logs[..|logs| - 1], u);
    }
  }

  datatype UserInfo = UserInfo(userId: string, state: AccountState)

  /** The dictionary `get_stats` returns. */
  datatype Stats = Stats(
    normal: nat,
    restrictedWithdrawal: nat,
    underSurveillance: nat,
    banned: nat,
    totalAccounts: nat,
    totalTransitions: nat,
    blockedWithdrawals: nat)

  /** Number of the listed users whose stored state is `s`. */
  function CountState(ids: seq<string>, accounts: map<string, AccountState>, s: AccountState): nat
    decreases |ids|
  {
    if ids == [] then 0
    else
      var u := ids[|ids| - 1];
      CountState(ids[..|ids| - 1], accounts, s) + (if u in accounts && accounts[u] == s then 1 else 0)
  }

  lemma {:induction false} CountsSum(ids: seq<string>, accounts: map<string, AccountState>)
    requires forall u :: u in ids ==> u in accounts
    ensures CountState(ids, accounts, Normal) + CountState(ids, accounts, RestrictedWithdrawal)
          + CountState(ids, accounts, UnderSurveillance) + CountState(ids, accounts, Banned) == |ids|
    decreases |ids|
  {
    if ids != [] {
      CountsSum(ids[..|ids| - 1], accounts);
    }
  }

  /** A duplicate-free list of the keys has as many entries as there are keys. */
  lemma {:induction false} DistinctLength(ids: seq<string>, keys: set<string>)
    requires forall i, j :: 0 <= i < j < |ids| ==> ids[i] != ids[j]
    requires forall u :: u in keys <==> u in ids
    ensures |keys| == |ids|
    decreases |ids|
  {
    if ids != [] {
      var last := ids[|ids| - 1];
      var init := ids[..|ids| - 1];
      assert forall u :: u in keys - {last} <==> u in init by {
        forall u ensures u in keys - {last} <==> u in init {
          if u in init {
            var k :| 0 <= k < |init| && init[k] == u;
            assert ids[k] == u;
          }
          if u in ids && u != last {
            var k :| 0 <= k < |ids| && ids[k] == u;
            assert k < |ids| - 1 && init[k] == u;
          }
        }
      }
      DistinctLength(init, keys - {last});
    }
  }

  /** `if state_filter and st != state_filter: continue` (an enum value is always truthy). */
  predicate Matches(filter: Option<AccountState>, s: AccountState) {
    filter.None? || s == filter.value
  }

  /** The users `get_all_users` lists, in dictionary order. */
  function Listed(ids: seq<string>, accounts: map<string, AccountState>, filter: Option<AccountState>): seq<UserInfo>
    decreases |ids|
  {
    if ids == [] then []
    else
      var u := ids[|ids| - 1];
      Listed(ids[..|ids| - 1], accounts, filter) +
      (if u in accounts && Matches(filter, accounts[u]) then [UserInfo(u, accounts[u])] else [])
  }

  lemma {:induction false} ListedExactly(ids: seq<string>, accounts: map<string, AccountState>, filter: Option<AccountState>)
    ensures forall v :: v in Listed(ids, accounts, filter) <==>
      v.userId in ids && v.userId in accounts && v.state == accounts[v.userId] && Matches(filter, v.state)
    decreases |ids|
  {
    if ids != [] {
      var init := ids[..|ids| - 1];
      ListedExactly(init, accounts, filter);
      assert ids == init + [ids[|ids| - 1]];
    }
  }

  predicate DistinctUsers(users: seq<UserInfo>) {
    forall i, j :: 0 <= i < j < |users| ==> users[i].userId != users[j].userId
  }

  lemma {:induction false} ListedDistinct(ids: seq<string>, accounts: map<string, AccountState>, filter: Option<AccountState>)
    requires forall i, j :: 0 <= i < j < |ids| ==> ids[i] != ids[j]
    ensures DistinctUsers(Listed(ids, accounts, filter))
    decreases |ids|
  {
    if ids != [] {
      var init := ids[..|ids| - 1];
      var u := ids[|ids| - 1];
      ListedDistinct(init, accounts, filter);
      ListedExactly(init, accounts, filter);
      var p := Listed(init, accounts, filter);
      assert u !in init;
      forall i | 0 <= i < |p| ensures p[i].userId != u {
        assert p[i] in p;
      }
      var r := Listed(ids, accounts, filter);
      if u in accounts && Matches(filter, accounts[u]) {
        assert r == p + [UserInfo(u, accounts[u])];
        forall i, j | 0 <= i < j < |r| ensures r[i].userId != r[j].userId {
          if j == |p| {
            assert r[i] == p[i] && r[j].userId == u;
          } else {
            assert r[i] == p[i] && r[j] == p[j];
          }
        }
      } else {
        assert r == p;
      }
    }
  }

  /**
   * The keys are listed once each in `ids`, every log entry is an allowed
   * edge that starts from the user's previous state, and every stored state
   * is the one the user's log entries replay to.
   */
  ghost predicate Consistent(accounts: map<string, AccountState>, ids: seq<string>, logs: seq<TransitionLog>) {
    && (forall i, j :: 0 <= i < j < |ids| ==> ids[i] != ids[j])
    && (forall u :: u in accounts <==> u in ids)
    && (forall i :: 0 <= i < |logs| ==> logs[i].userId in accounts)
    && Chained(logs)
    && (forall u :: u in accounts ==> accounts[u] == LastState(logs, u))
  }

  lemma InsertKeepsConsistent(accounts: map<string, AccountState>, ids: seq<string>, logs: seq<TransitionLog>, u: string)
    requires Consistent(accounts, ids, logs) && u !in accounts
    ensures Consistent(accounts[u := Normal], ids + [u], logs)
  {
    LastStateUntouched(logs, u);
  }

  lemma MoveKeepsConsistent(accounts: map<string, AccountState>, ids: seq<string>, logs: seq<TransitionLog>, e: TransitionLog)
    requires Consistent(accounts, ids, logs)
    requires e.userId in accounts && e.fromState == accounts[e.userId] && CanMove(e.fromState, e.toState)
    ensures Consistent(accounts[e.userId := e.toState], ids, logs + [e])
  {
    ChainedAppend(logs, e);
    forall v ensures LastState(logs + [e], v) == if v == e.userId then e.toState else LastState(logs, v) {
      LastStateAppend(logs, e, v);
    }
  }

  class StateMachine {
    var accounts: map<string, AccountState>
    /** The dictionary's insertion order, which `get_all_users` and `get_stats` iterate. */
    var ids: seq<string>
    var transitionLogs: seq<TransitionLog>
    var blockedWithdrawals: nat

    /**
     * The keys are listed once each in `ids`, every log entry is an allowed
     * edge that starts from the user's previous state, and every stored state
     * is the one the user's log entries replay to.
     */
    ghost predicate Valid()
      reads this
    {
      Consistent(accounts, ids, transitionLogs)
    }

    /** The state `get_or_create` would return: the stored one, else NORMAL. */
    function StateOf(u: string): AccountState
      reads this
    {
      if u in accounts then accounts[u] else Normal
    }

    constructor ()
      ensures Valid()
      ensures accounts == map[] && ids == [] && transitionLogs == [] && blockedWithdrawals == 0
    {
      accounts := map[];
      ids := [];
      transitionLogs := [];
      blockedWithdrawals := 0;
    }

    /** An unknown user is inserted as NORMAL; a known one is returned untouched. */
    method GetOrCreate(u: string) returns (s: AccountState)
      requires Valid()
      modifies this
      ensures Valid()
      ensures s == old(StateOf(u))
      ensures accounts == old(accounts)[u := s]
      ensures ids == if u in old(accounts) then old(ids) else old(ids) + [u]
      ensures transitionLogs == old(transitionLogs) && blockedWithdrawals == old(blockedWithdrawals)
    {
      if u !in accounts {
        InsertKeepsConsistent(accounts, ids, transitionLogs, u);
        accounts := accounts[u := Normal];
        ids := ids + [u];
      }
      s := accounts[u];
    }

    /** The allowed branch of `transition`: store the new state and append the entry. */
    method Move(e: TransitionLog)
      requires Valid()
      requires e.userId in accounts && e.fromState == accounts[e.userId] && CanMove(e.fromState, e.toState)
      modifies this
      ensures Valid()
      ensures accounts == old(accounts)[e.userId := e.toState]
      ensures ids == old(ids) && transitionLogs == old(transitionLogs) + [e]
      ensures blockedWithdrawals == old(blockedWithdrawals)
    {
      MoveKeepsConsistent(accounts, ids, transitionLogs, e);
      accounts := accounts[e.userId := e.toState];
      transitionLogs := transitionLogs + [e];
    }

    /**
     * Moves `u` to `newState` when the table allows it and logs exactly one
     * entry; otherwise refuses and changes nothing but the get_or_create insert.
     */
    method Transition(u: string, newState: AccountState, trigger: string, rule: string, evidence: string)
      returns (ok: bool)
      requires Valid()
      modifies this
      ensures Valid()
      ensures ok <==> CanMove(old(StateOf(u)), newState)
      ensures accounts == old(accounts)[u := if ok then newState else old(StateOf(u))]
      ensures ids == if u in old(accounts) then old(ids) else old(ids) + [u]
      ensures transitionLogs == old(transitionLogs) +
        (if ok then [TransitionLog(u, old(StateOf(u)), newState, trigger, rule, evidence)] else [])
      ensures blockedWithdrawals == old(blockedWithdrawals)
    {
      ghost var before := accounts;
      var current := GetOrCreate(u);
      ok := CanMove(current, newState);
      if ok {
        Move(TransitionLog(u, current, newState, trigger, rule, evidence));
        UpdateTwice(before, u, current, newState);
      }
    }

    method CanWithdraw(u: string) returns (b: bool)
      requires Valid()
      modifies this
      ensures Valid()
      ensures b <==> old(StateOf(u)) == Normal
      ensures accounts == old(accounts)[u := old(StateOf(u))]
      ensures ids == if u in old(accounts) then old(ids) else old(ids) + [u]
      ensures transitionLogs == old(transitionLogs) && blockedWithdrawals == old(blockedWithdrawals)
    {
      var s := GetOrCreate(u);
      b := s == Normal;
    }

    /** The per-state counts add up to the number of accounts. */
    method GetStats() returns (st: Stats)
      requires Valid()
      ensures st.normal == CountState(ids, accounts, Normal)
      ensures st.restrictedWithdrawal == CountState(ids, accounts, RestrictedWithdrawal)
      ensures st.underSurveillance == CountState(ids, accounts, UnderSurveillance)
      ensures st.banned == CountState(ids, accounts, Banned)
      ensures st.normal + st.restrictedWithdrawal + st.underSurveillance + st.banned == st.totalAccounts
      ensures st.totalAccounts == |accounts|
      ensures st.totalTransitions == |transitionLogs| && st.blockedWithdrawals == blockedWithdrawals
    {
      var n, rw, us, b := 0, 0, 0, 0;
      for i := 0 to |ids|
        invariant n == CountState(ids[..i], accounts, Normal)
        invariant rw == CountState(ids[..i], accounts, RestrictedWithdrawal)
        invariant us == CountState(ids[..i], accounts, UnderSurveillance)
        invariant b == CountState(ids[..i], accounts, Banned)
      {
        assert ids[..i + 1][..i] == ids[..i];
        var s := accounts[ids[i]];
        match s
        case Normal => n := n + 1;
        case RestrictedWithdrawal => rw := rw + 1;
        case UnderSurveillance => us := us + 1;
        case Banned => b := b + 1;
      }
      assert ids[..|ids|] == ids;
      CountsSum(ids, accounts);
      DistinctLength(ids, accounts.Keys);
      st := Stats(n, rw, us, b, |accounts|, |transitionLogs|, blockedWithdrawals);
    }

    /** The last `limit` log entries, newest first (Python `reversed(logs[-limit:])`). */
    function GetTransitions(limit: int): (r: seq<TransitionLog>)
      reads this
      ensures IsNewestFirst(r, transitionLogs, limit)
    {
      NewestFirst(transitionLogs, limit)
    }

    /** Every account in the filtered state, once each, in dictionary order. */
    method GetAllUsers(filter: Option<AccountState>) returns (users: seq<UserInfo>)
      requires Valid()
      ensures users == Listed(ids, accounts, filter)
      ensures forall v :: v in users <==> v.userId in accounts && v.state == accounts[v.userId] && Matches(filter, v.state)
      ensures forall i, j :: 0 <= i < j < |users| ==> users[i].userId != users[j].userId
    {
      users := [];
      for i := 0 to |ids|
        invariant users == Listed(ids[..i], accounts, filter)
      {
        assert ids[..i + 1][..i] == ids[..i];
        var u := ids[i];
        var st := accounts[u];
        if filter.Some? && st != filter.value {
          continue;
        }
        users := users + [UserInfo(u, st)];
      }
      assert ids[..|ids|] == ids;
      ListedExactly(ids, accounts, filter);
      ListedDistinct(ids, accounts, filter);
    }
  }
}
