/**
 * L1 rule screening (backend/l1_screening.py): per-target sliding windows of
 * events, the four rules R1..R4 checked in a fixed order, the bounded buffer
 * of the 200 most recent events, and the aggregation of that buffer into
 * graph nodes and links.
 *
 * The wall clock of `_purge` is an explicit `now` (whole seconds), and the
 * slang regular expression is written out at character level.
 *
 * Test/code disagreement, recorded here and not proved: the tests await an
 * async, Redis-backed engine with a `reset` method and expect
 * `get_recent_events` to yield dictionaries holding the screening verdict;
 * the code shown keeps plain events.
 */
module L1Screening {
  import opened Base
  import opened Models

  const WindowSeconds := 300
  const AmountThreshold := 1_000_000
  const TxCountThreshold := 10
  const MarketAvgMultiplier := 100
  /** `deque(maxlen=200)`. */
  const RecentCapacity := 200

  /**
   * One alternative of SLANG_PATTERN matches at position i:
   * 振[り込]?込 | D[でにて]確認 | [0-9]+[kK千万] | りょ[。.] | PayPa[ly] | 銀行 | 口座 | 送金 | 入金確認.
   * For `[0-9]+[kK千万]` a search succeeds exactly when some digit is directly
   * followed by one of the unit characters, which is what this alternative checks.
   */
  predicate SlangAt(s: string, i: int)
    requires 0 <= i < |s|
  {
    || (s[i] == '振' && ((i + 1 < |s| && s[i + 1] == '込') ||
                         (i + 2 < |s| && OneOf(s[i + 1], "り込") && s[i + 2] == '込')))
    || (s[i] == 'D' && i + 3 < |s| && OneOf(s[i + 1], "でにて") && s[i + 2] == '確' && s[i + 3] == '認')
    || ('0' <= s[i] <= '9' && i + 1 < |s| && OneOf(s[i + 1], "kK千万"))
    || (s[i] == 'り' && i + 2 < |s| && s[i + 1] == 'ょ' && OneOf(s[i + 2], "。."))
    || (StartsAt(s, i, "PayPa") && i + 5 < |s| && OneOf(s[i + 5], "ly"))
    || StartsAt(s, i, "銀行")
    || StartsAt(s, i, "口座")
    || StartsAt(s, i, "送金")
    || StartsAt(s, i, "入金確認")
  }

  /** The regular-expression search, scanning start positions from `i` onwards. */
  predicate SlangFrom(chat: string, i: nat)
    decreases |chat| - i
  {
    i < |chat| && (SlangAt(chat, i) || SlangFrom(chat, i + 1))
  }

  /** `_check_slang`: `SLANG_PATTERN.search(chat_log)` finds a match. */
  predicate CheckSlang(chat: string) {
    SlangFrom(chat, 0)
  }

  /** The search succeeds from `i` exactly when some alternative matches at a position at or after `i`. */
  lemma {:induction false} SlangFromExists(chat: string, i: nat)
    ensures SlangFrom(chat, i) <==> exists j :: i <= j < |chat| && SlangAt(chat, j)
    decreases |chat| - i
  {
    if i < |chat| {
      SlangFromExists(chat, i + 1);
      if !SlangAt(chat, i) && exists j :: i <= j < |chat| && SlangAt(chat, j) {
        var j :| i <= j < |chat| && SlangAt(chat, j);
        assert j > i;
      }
    }
  }

  lemma CheckSlangExists(chat: string)
    ensures CheckSlang(chat) <==> exists j :: 0 <= j < |chat| && SlangAt(chat, j)
  {
    SlangFromExists(chat, 0);
  }

  function SumAmounts(events: seq<Event>): int
    decreases |events|
  {
    if events == [] then 0 else SumAmounts(events[..|events| - 1]) + events[|events| - 1].amount
  }

  function Senders(events: seq<Event>): set<string> {
    set e | e in events :: e.actorId
  }

  /** There are never more distinct senders than events. */
  lemma {:induction false} SendersBound(events: seq<Event>)
    ensures |Senders(events)| <= |events|
    decreases |events|
  {
    if events != [] {
      var init := events[..|events| - 1];
      var last := events[|events| - 1];
      SendersBound(init);
      assert events == init + [last];
      assert Senders(events) == Senders(init) + {last.actorId};
    }
  }

  /** The event is older than the cut-off; an unparsable timestamp counts as `now`, never expired. */
  predicate Expired(e: Event, cutoff: int) {
    e.timestamp.Some? && e.timestamp.value < cutoff
  }

  /** What `_purge` leaves: expired events popped from the front, up to the first live one. */
  function Purged(events: seq<Event>, cutoff: int): seq<Event>
    decreases |events|
  {
    if events != [] && Expired(events[0], cutoff) then Purged(events[1..], cutoff) else events
  }

  /**
   * The purge keeps a suffix of the window, every dropped event was expired,
   * and dropping stopped at the first event that was not.
   */
  lemma {:induction false} PurgedShape(events: seq<Event>, cutoff: int)
    ensures var r := Purged(events, cutoff);
      && |r| <= |events| && r == events[|events| - |r|..]
      && (forall j :: 0 <= j < |events| - |r| ==> Expired(events[j], cutoff))
      && (r != [] ==> !Expired(r[0], cutoff))
    decreases |events|
  {
    if events != [] && Expired(events[0], cutoff) {
      PurgedShape(events[1..], cutoff);
    }
  }

  /** An event that has not expired survives the purge that follows its append, as the newest. */
  lemma PurgeKeepsLiveEvent(events: seq<Event>, e: Event, cutoff: int)
    requires !Expired(e, cutoff)
    ensures var r := Purged(events + [e], cutoff); r != [] && r[|r| - 1] == e
  {
    var s := events + [e];
    PurgedShape(s, cutoff);
    assert s[|s| - 1] == e;
  }

  /** `if cond: triggered.append(name)`, as the list it contributes. */
  function RuleIf(cond: bool, r: Rule): seq<Rule> {
    if cond then [r] else []
  }

  /** The `triggered` list for the four rule conditions, appended in the order R1, R2, R3, R4. */
  function RulesHit(r1: bool, r2: bool, r3: bool, r4: bool): seq<Rule> {
    RuleIf(r1, R1) + RuleIf(r2, R2) + RuleIf(r3, R3) + RuleIf(r4, R4)
  }

  /** Appending a rule numbered after every listed one keeps the list in rule order. */
  lemma OrderedSnoc(rules: seq<Rule>, cond: bool, r: Rule)
    requires InRuleOrder(rules) && forall i :: 0 <= i < |rules| ==> RuleIndex(rules[i]) < RuleIndex(r)
    ensures InRuleOrder(rules + RuleIf(cond, r))
  {
  }

  /** Each rule is listed exactly when its condition holds. */
  lemma RulesHitMembers(r1: bool, r2: bool, r3: bool, r4: bool)
    ensures var t := RulesHit(r1, r2, r3, r4);
      && (R1 in t <==> r1) && (R2 in t <==> r2) && (R3 in t <==> r3) && (R4 in t <==> r4)
      && (t != [] <==> r1 || r2 || r3 || r4)
  {
  }

  /** The rules are listed in R1..R4 order. */
  lemma RulesHitOrdered(r1: bool, r2: bool, r3: bool, r4: bool)
    ensures InRuleOrder(RulesHit(r1, r2, r3, r4))
  {
    var a := RuleIf(r1, R1);
    OrderedSnoc(a, r2, R2);
    var b := a + RuleIf(r2, R2);
    OrderedSnoc(b, r3, R3);
    OrderedSnoc(b + RuleIf(r3, R3), r4, R4);
  }

  /** The third rule's condition: `market_avg_price and market_avg_price > 0 and amount >= price * 100`. */
  predicate PriceRule(e: Event) {
    // None and 0 are falsy
    var price := e.marketAvgPrice;
    price.Some? && price.value != 0 && price.value > 0 && e.amount >= price.value * MarketAvgMultiplier
  }

  /**
   * The rules of `screen` over the target's window and the event. They are
   * evaluated in the order R1, R2, R3, R4; any hit screens the event and
   * recommends RESTRICTED_WITHDRAWAL; only R4 asks for L2.
   */
  function Screening(total: int, count: int, e: Event): ScreeningResult
  {
    var needsL2 := CheckSlang(e.chatLog.GetOr(""));
    var triggered := RulesHit(total >= AmountThreshold, count >= TxCountThreshold, PriceRule(e), needsL2);
    ScreeningResult(
      triggered != [],
      triggered,
      if triggered != [] then Some(RestrictedWithdrawal) else None,
      needsL2)
  }

  /**
   * Each rule fires exactly under its condition, the rules are listed in
   * R1..R4 order, only R4 asks for L2, and any hit screens the event with
   * RESTRICTED_WITHDRAWAL recommended.
   */
  lemma ScreeningRules(total: int, count: int, e: Event)
    ensures var r := Screening(total, count, e);
      && (R1 in r.triggeredRules <==> total >= AmountThreshold)
      && (R2 in r.triggeredRules <==> count >= TxCountThreshold)
      && (R3 in r.triggeredRules <==>
            e.marketAvgPrice.Some? && e.marketAvgPrice.value > 0 &&
            e.amount >= e.marketAvgPrice.value * MarketAvgMultiplier)
      && (R4 in r.triggeredRules <==> e.chatLog.Some? && CheckSlang(e.chatLog.value))
      && InRuleOrder(r.triggeredRules)
      && (r.needsL2 <==> R4 in r.triggeredRules)
      && (r.screened <==> r.triggeredRules != [])
      && r.recommendedAction == (if r.screened then Some(RestrictedWithdrawal) else None)
  {
    var slang := CheckSlang(e.chatLog.GetOr(""));
    assert slang <==> e.chatLog.Some? && CheckSlang(e.chatLog.value) by {
      if e.chatLog.None? {
        assert !CheckSlang("");
      }
    }
    RulesHitMembers(total >= AmountThreshold, count >= TxCountThreshold, PriceRule(e), slang);
    RulesHitOrdered(total >= AmountThreshold, count >= TxCountThreshold, PriceRule(e), slang);
  }

  /** Appending to `deque(maxlen=200)`: when the buffer is full, the oldest event is dropped. */
  function Pushed(recent: seq<Event>, e: Event): (r: seq<Event>)
    requires |recent| <= RecentCapacity
    ensures |r| == Min(|recent| + 1, RecentCapacity)
  {
    if |recent| < RecentCapacity then recent + [e] else recent[1..] + [e]
  }

  /** The buffer after the push is the newest part of the old buffer followed by the new event. */
  lemma PushedKeepsNewest(recent: seq<Event>, e: Event)
    requires |recent| <= RecentCapacity
    ensures var r := Pushed(recent, e);
      r == (recent + [e])[|recent| + 1 - |r|..] && r[|r| - 1] == e
  {
  }

  /** Every actor and target named by the events. */
  function Endpoints(events: seq<Event>): set<string>
    decreases |events|
  {
    if events == [] then {}
    else
      var e := events[|events| - 1];
      Endpoints(events[..|events| - 1]) + {e.actorId, e.targetId}
  }

  /** Every (actor, target) pair that occurs. */
  function Pairs(events: seq<Event>): set<(string, string)>
    decreases |events|
  {
    if events == [] then {}
    else
      var e := events[|events| - 1];
      Pairs(events[..|events| - 1]) + {(e.actorId, e.targetId)}
  }

  /** Sum of the amounts sent from `a` to `t`. */
  function PairAmount(events: seq<Event>, a: string, t: string): int
    decreases |events|
  {
    if events == [] then 0
    else
      var e := events[|events| - 1];
      PairAmount(events[..|events| - 1], a, t) + (if e.actorId == a && e.targetId == t then e.amount else 0)
  }

  /** Number of events sent from `a` to `t`. */
  function PairCount(events: seq<Event>, a: string, t: string): nat
    decreases |events|
  {
    if events == [] then 0
    else
      var e := events[|events| - 1];
      PairCount(events[..|events| - 1], a, t) + (if e.actorId == a && e.targetId == t then 1 else 0)
  }

  /** Both ends of every pair are endpoints, and every occurring pair has a positive count. */
  lemma {:induction false} PairsWithinEndpoints(events: seq<Event>)
    ensures forall k :: k in Pairs(events) ==>
      k.0 in Endpoints(events) && k.1 in Endpoints(events) && PairCount(events, k.0, k.1) >= 1
    decreases |events|
  {
    if events != [] {
      PairsWithinEndpoints(events[..|events| - 1]);
    }
  }

  /** A pair that never occurs has no amount and no count. */
  lemma {:induction false} AbsentPair(events: seq<Event>, a: string, t: string)
    requires (a, t) !in Pairs(events)
    ensures PairAmount(events, a, t) == 0 && PairCount(events, a, t) == 0
    decreases |events|
  {
    if events != [] {
      AbsentPair(events[..|events| - 1], a, t);
    }
  }

  /** The (actor, target) pair an event links. */
  function PairOf(e: Event): (string, string) {
    (e.actorId, e.targetId)
  }

  /** The occurring pairs in the order their first event appears: the insertion order of `link_map`. */
  function PairOrder(events: seq<Event>): seq<(string, string)>
    decreases |events|
  {
    if events == [] then []
    else
      var init := PairOrder(events[..|events| - 1]);
      var key := PairOf(events[|events| - 1]);
      if key in init then init else init + [key]
  }

  /** A pair is listed exactly when some event links it. */
  lemma {:induction false} PairOrderMembers(events: seq<Event>, k: (string, string))
    ensures k in PairOrder(events) <==> exists i :: 0 <= i < |events| && PairOf(events[i]) == k
    ensures k in PairOrder(events) <==> k in Pairs(events)
    decreases |events|
  {
    if events != [] {
      var init := events[..|events| - 1];
      PairOrderMembers(init, k);
      if exists i :: 0 <= i < |init| && PairOf(init[i]) == k {
        var i :| 0 <= i < |init| && PairOf(init[i]) == k;
        assert events[i] == init[i];
      }
      if exists i :: 0 <= i < |events| && PairOf(events[i]) == k {
        var i :| 0 <= i < |events| && PairOf(events[i]) == k;
        if i < |init| { assert init[i] == events[i]; }
      }
    }
  }

  /**
   * First-seen order: every event linking a later pair is preceded by an
   * event linking each earlier pair.
   */
  lemma {:induction false} PairOrderFirstSeen(events: seq<Event>)
    ensures forall a, b, i :: 0 <= a < b < |PairOrder(events)| && 0 <= i < |events| && PairOf(events[i]) == PairOrder(events)[b] ==>
      exists j :: 0 <= j < i && PairOf(events[j]) == PairOrder(events)[a]
    decreases |events|
  {
    if events != [] {
      var n := |events|;
      var init := events[..n - 1];
      var before := PairOrder(init);
      var key := PairOf(events[n - 1]);
      var keys := PairOrder(events);
      PairOrderFirstSeen(init);
      forall a, b, i | 0 <= a < b < |keys| && 0 <= i < n && PairOf(events[i]) == keys[b]
        ensures exists j :: 0 <= j < i && PairOf(events[j]) == keys[a]
      {
        assert keys[a] == before[a];
        if b < |before| {
          assert keys[b] == before[b];
          var i' := i;
          if i == n - 1 {
            PairOrderMembers(init, before[b]);
            i' :| 0 <= i' < |init| && PairOf(init[i']) == before[b];
          }
          assert 0 <= a < b < |before| && 0 <= i' < |init| && PairOf(init[i']) == before[b];
          assert exists j :: 0 <= j < i' && PairOf(init[j]) == before[a];
          var j :| 0 <= j < i' && PairOf(init[j]) == before[a];
          assert events[j] == init[j];
        } else {
          assert keys[b] == key && key !in before;
          if i < n - 1 {
            PairOrderMembers(init, key);
            assert false;
          }
          PairOrderMembers(init, before[a]);
          var j :| 0 <= j < |init| && PairOf(init[j]) == before[a];
          assert events[j] == init[j];
        }
      }
    }
  }

  /**
   * `keys` lists the occurring pairs once each, in the order their first
   * event appears, and `table` maps each occurring pair to its link with the
   * pair's amount sum and event count.
   */
  ghost predicate IsLinkTable(events: seq<Event>, keys: seq<(string, string)>, table: map<(string, string), GraphLink>) {
    && keys == PairOrder(events)
    && (forall a, b :: 0 <= a < b < |keys| ==> keys[a] != keys[b])
    && (forall k :: k in table <==> k in keys)
    && (forall k :: k in table <==> k in Pairs(events))
    && (forall k :: k in table ==>
          table[k] == GraphLink(k.0, k.1, PairAmount(events, k.0, k.1), PairCount(events, k.0, k.1)))
  }

  /** Folding one more event into the link table keeps it exact. */
  lemma LinkTableStep(events: seq<Event>, keys: seq<(string, string)>, table: map<(string, string), GraphLink>,
                      e: Event, keys2: seq<(string, string)>, table2: map<(string, string), GraphLink>)
    requires IsLinkTable(events, keys, table)
    requires var key := (e.actorId, e.targetId);
      var l := if key in table then table[key] else GraphLink(e.actorId, e.targetId, 0, 0);
      keys2 == (if key in table then keys else keys + [key]) &&
      table2 == table[key := l.(amount := l.amount + e.amount, count := l.count + 1)]
    ensures IsLinkTable(events + [e], keys2, table2)
  {
    var s := events + [e];
    assert s[..|s| - 1] == events;
    var key := (e.actorId, e.targetId);
    if key !in table {
      AbsentPair(events, key.0, key.1);
    }
    assert PairOf(s[|s| - 1]) == key;
    assert keys2 == PairOrder(s);
    assert forall a, b :: 0 <= a < b < |keys2| ==> keys2[a] != keys2[b] by {
      if key !in table {
        assert key !in keys;
      }
    }
    assert forall k :: k in table2 <==> k in keys2;
    assert Pairs(s) == Pairs(events) + {key};
    assert forall k :: k in table2 <==> k in Pairs(s);
    forall k | k in table2
      ensures table2[k] == GraphLink(k.0, k.1, PairAmount(s, k.0, k.1), PairCount(s, k.0, k.1))
    {
      assert PairAmount(s, k.0, k.1) == PairAmount(events, k.0, k.1) + (if k == key then e.amount else 0);
      assert PairCount(s, k.0, k.1) == PairCount(events, k.0, k.1) + (if k == key then 1 else 0);
    }
  }

  /** The loop of `get_graph_data` over the recent events: node ids and link table. */
  method ScanEvents(evs: seq<Event>) returns (nodeIds: set<string>, keys: seq<(string, string)>, table: map<(string, string), GraphLink>)
    ensures nodeIds == Endpoints(evs)
    ensures IsLinkTable(evs, keys, table)
  {
    nodeIds := {};
    keys := [];
    table := map[];
    for i := 0 to |evs|
      invariant nodeIds == Endpoints(evs[..i])
      invariant IsLinkTable(evs[..i], keys, table)
    {
      var e := evs[i];
      assert evs[..i + 1] == evs[..i] + [e];
      assert (evs[..i] + [e])[..i] == evs[..i];
      ghost var keys0, table0 := keys, table;
      nodeIds := nodeIds + {e.actorId, e.targetId};
      var key := (e.actorId, e.targetId);
      if key !in table {
        table := table[key := GraphLink(e.actorId, e.targetId, 0, 0)];
        keys := keys + [key];
      }
      var l := table[key];
      table := table[key := l.(amount := l.amount + e.amount, count := l.count + 1)];
      LinkTableStep(evs[..i], keys0, table0, e, keys, table);
    }
    assert evs[..|evs|] == evs;
  }

  /** The node `get_graph_data` emits for an id. */
  function NodeOf(accounts: map<string, AccountState>, id: string): GraphNode {
    GraphNode(id, StateIn(accounts, id), id)
  }

  function NodeSet(ids: set<string>, accounts: map<string, AccountState>): set<GraphNode> {
    set id | id in ids :: NodeOf(accounts, id)
  }

  /** The node set has exactly the given ids, one node each, labelled with its id and its looked-up state. */
  lemma NodeSetExact(ids: set<string>, accounts: map<string, AccountState>)
    ensures forall n :: n in NodeSet(ids, accounts) ==>
      n.id in ids && n.labelText == n.id && n.state == StateIn(accounts, n.id)
    ensures forall id :: id in ids ==> NodeOf(accounts, id) in NodeSet(ids, accounts)
  {
  }

  /** The loop over `node_ids`, visiting the ids in an arbitrary order. */
  method NodesFor(nodeIds: set<string>, accounts: map<string, AccountState>) returns (nodes: set<GraphNode>)
    ensures nodes == NodeSet(nodeIds, accounts)
  {
    nodes := {};
    var todo := nodeIds;
    while todo != {}
      invariant todo <= nodeIds
      invariant nodes == NodeSet(nodeIds - todo, accounts)
      decreases todo
    {
      var nid :| nid in todo;
      assert NodeSet(nodeIds - (todo - {nid}), accounts) == NodeSet(nodeIds - todo, accounts) + {NodeOf(accounts, nid)};
      nodes := nodes + {NodeOf(accounts, nid)};
      todo := todo - {nid};
    }
  }

  /** The table's links listed in the order of `keys`. */
  function LinksOf(keys: seq<(string, string)>, table: map<(string, string), GraphLink>): (links: seq<GraphLink>)
    requires forall k :: k in keys ==> k in table
    ensures |links| == |keys| && forall j :: 0 <= j < |keys| ==> links[j] == table[keys[j]]
  {
    seq(|keys|, j requires 0 <= j < |keys| => table[keys[j]])
  }

  /**
   * The links of an exact table: one per occurring pair, each carrying the
   * pair's amount sum and positive event count, both ends being endpoints.
   */
  lemma LinksOfTable(events: seq<Event>, keys: seq<(string, string)>, table: map<(string, string), GraphLink>)
    requires IsLinkTable(events, keys, table)
    ensures var links := LinksOf(keys, table);
      && |links| == |PairOrder(events)|
      && (forall j :: 0 <= j < |links| ==> (links[j].source, links[j].target) == PairOrder(events)[j])
      && (forall i, j :: 0 <= i < j < |links| ==>
            (links[i].source, links[i].target) != (links[j].source, links[j].target))
      && (set l | l in links :: (l.source, l.target)) == Pairs(events)
      && (forall l :: l in links ==>
            && l.amount == PairAmount(events, l.source, l.target)
            && l.count == PairCount(events, l.source, l.target)
            && l.count >= 1
            && l.source in Endpoints(events) && l.target in Endpoints(events))
  {
    var links := LinksOf(keys, table);
    PairsWithinEndpoints(events);
    forall l | l in links
      ensures (l.source, l.target) in keys && l == table[(l.source, l.target)]
    {
      var j :| 0 <= j < |links| && links[j] == l;
      assert links[j] == table[keys[j]];
    }
    forall k | k in Pairs(events)
      ensures k in (set l | l in links :: (l.source, l.target))
    {
      var j :| 0 <= j < |keys| && keys[j] == k;
      assert links[j] == table[k];
    }
  }

  lemma ValuesOfInsert<K, V>(m: map<K, V>, k: K, v: V)
    requires k !in m
    ensures m[k := v].Values == m.Values + {v}
  {
    forall o | o in m.Values + {v}
      ensures o in m[k := v].Values
    {
      if o != v {
        var j :| j in m && m[j] == o;
        assert m[k := v][j] == o;
      } else {
        assert m[k := v][k] == v;
      }
    }
  }

  function StateIn(accounts: map<string, AccountState>, id: string): AccountState {
    if id in accounts then accounts[id] else Normal
  }

  class UserWindow {
    var events: seq<Event>

    constructor ()
      ensures events == []
    {
      events := [];
    }

    method AddEvent(e: Event, now: int)
      modifies this
      ensures events == Purged(old(events) + [e], now - WindowSeconds)
    {
      events := events + [e];
      Purge(now);
    }

    /** Pops expired events from the front until the first one that has not expired. */
    method Purge(now: int)
      modifies this
      ensures events == Purged(old(events), now - WindowSeconds)
    {
      var cutoff := now - WindowSeconds;
      while events != []
        invariant Purged(events, cutoff) == Purged(old(events), cutoff)
        decreases |events|
      {
        if Expired(events[0], cutoff) {
          events := events[1..];
        } else {
          break;
        }
      }
    }

    function TotalAmount(): int
      reads this
    {
      SumAmounts(events)
    }

    function TransactionCount(): nat
      reads this
    {
      |events|
    }

    function UniqueSenders(): (n: nat)
      reads this
      ensures n <= TransactionCount()
    {
      SendersBound(events);
      |Senders(events)|
    }
  }

  class L1Engine {
    var userWindows: map<string, UserWindow>
    var recentEvents: seq<Event>
    var l1FlagCount: nat
    /** The contents of every window, by target. */
    ghost var windows: map<string, seq<Event>>
    ghost var Repr: set<object>

    /**
     * Each target owns its own window object, `windows` mirrors their
     * contents, and the recent buffer is bounded.
     */
    ghost predicate Valid()
      reads this, Repr
    {
      && Repr == {this} + userWindows.Values
      && (forall a, b :: a in userWindows && b in userWindows && a != b ==> userWindows[a] != userWindows[b])
      && userWindows.Keys == windows.Keys
      && (forall k :: k in userWindows ==> userWindows[k].events == windows[k])
      && |recentEvents| <= RecentCapacity
    }

    /** The window of `id`, empty when none exists. */
    ghost function WindowOf(id: string): seq<Event>
      reads this
    {
      if id in windows then windows[id] else []
    }

    constructor ()
      ensures Valid() && fresh(Repr)
      ensures windows == map[] && recentEvents == [] && l1FlagCount == 0
    {
      userWindows := map[];
      windows := map[];
      recentEvents := [];
      l1FlagCount := 0;
      Repr := {this};
    }

    /** `self.user_windows[target_id]` of the defaultdict: the window, created when missing. */
    method WindowFor(id: string) returns (w: UserWindow)
      requires Valid()
      modifies this
      ensures Valid() && fresh(Repr - old(Repr)) && w in Repr
      ensures id in userWindows && w == userWindows[id]
      ensures windows == old(windows)[id := old(WindowOf(id))]
      ensures recentEvents == old(recentEvents) && l1FlagCount == old(l1FlagCount)
    {
      if id in userWindows {
        w := userWindows[id];
        assert windows == windows[id := windows[id]];
      } else {
        w := new UserWindow();
        ValuesOfInsert(userWindows, id, w);
        userWindows := userWindows[id := w];
        windows := windows[id := []];
        Repr := Repr + {w};
      }
    }

    /**
     * The bookkeeping part of `screen`: appends the event to its target's
     * window (creating it), purges that window and appends the event to the
     * recent buffer; returns the purged window's total and count.
     */
    method Record(e: Event, now: int) returns (total: int, count: nat)
      requires Valid()
      modifies Repr
      ensures Valid() && fresh(Repr - old(Repr))
      ensures windows == old(windows)[e.targetId := Purged(old(WindowOf(e.targetId)) + [e], now - WindowSeconds)]
      ensures recentEvents == Pushed(old(recentEvents), e)
      ensures l1FlagCount == old(l1FlagCount)
      ensures total == SumAmounts(windows[e.targetId]) && count == |windows[e.targetId]|
    {
      var w := AddToWindow(e, now);
      recentEvents := Pushed(recentEvents, e);
      total := w.TotalAmount();
      count := w.TransactionCount();
    }

    /** `self.user_windows[target_id].add_event(event)`. */
    method AddToWindow(e: Event, now: int) returns (w: UserWindow)
      requires Valid()
      modifies Repr
      ensures Valid() && fresh(Repr - old(Repr))
      ensures windows == old(windows)[e.targetId := Purged(old(WindowOf(e.targetId)) + [e], now - WindowSeconds)]
      ensures recentEvents == old(recentEvents) && l1FlagCount == old(l1FlagCount)
      ensures e.targetId in userWindows && w == userWindows[e.targetId] && w.events == windows[e.targetId]
    {
      w := WindowFor(e.targetId);
      w.AddEvent(e, now);
      assert forall k :: k in userWindows && k != e.targetId ==> userWindows[k] != w;
      windows := windows[e.targetId := w.events];
    }

    /**
     * `screen`: records the event, then evaluates the rules over the purged
     * window; the flag counter rises by one exactly when some rule fired.
     */
    method Screen(e: Event, now: int) returns (res: ScreeningResult)
      requires Valid()
      modifies Repr
      ensures Valid() && fresh(Repr - old(Repr))
      ensures windows == old(windows)[e.targetId := Purged(old(WindowOf(e.targetId)) + [e], now - WindowSeconds)]
      ensures recentEvents == Pushed(old(recentEvents), e)
      ensures res == Screening(SumAmounts(windows[e.targetId]), |windows[e.targetId]|, e)
      ensures l1FlagCount == old(l1FlagCount) + (if res.screened then 1 else 0)
    {
      var total, count := Record(e, now);
      res := Screening(total, count, e);
      if res.screened {
        l1FlagCount := l1FlagCount + 1;
      }
    }

    /**
     * The analysis request for `userId`: the window's events, total, count and
     * number of distinct senders; an unknown user gets zeros and no window is
     * created for it.
     */
    function BuildAnalysisRequest(userId: string, e: Event, rules: seq<Rule>, state: AccountState): (req: AnalysisRequest)
      requires Valid()
      reads this, Repr
      ensures req.triggerEvent == e && req.triggeredRules == rules
      ensures req.relatedEvents == WindowOf(userId)
      ensures req.userProfile.userId == userId && req.userProfile.currentState == state
      ensures req.userProfile.totalReceived5min == SumAmounts(WindowOf(userId))
      ensures req.userProfile.transactionCount5min == |WindowOf(userId)|
      ensures req.userProfile.uniqueSenders5min == |Senders(WindowOf(userId))|
      ensures userId !in userWindows ==>
        req.relatedEvents == [] && req.userProfile.totalReceived5min == 0 &&
        req.userProfile.transactionCount5min == 0 && req.userProfile.uniqueSenders5min == 0
      ensures 0 <= req.userProfile.uniqueSenders5min <= req.userProfile.transactionCount5min
    {
      var events := if userId in userWindows then userWindows[userId].events else [];
      SendersBound(events);
      AnalysisRequest(
        e, events, rules,
        UserProfile(userId, state, SumAmounts(events), |events|, |Senders(events)|))
    }

    /** The last `limit` recent events, newest first. */
    function GetRecentEvents(limit: int): (r: seq<Event>)
      reads this
      ensures IsNewestFirst(r, recentEvents, limit)
    {
      NewestFirst(recentEvents, limit)
    }

    /**
     * Aggregates the recent buffer into one node per endpoint (state looked up
     * in `accounts`, NORMAL by default) and one link per (actor, target) pair
     * carrying the sum of the amounts and the number of events; the links
     * follow `PairOrder`, the order in which each pair first appears
     * (`PairOrderFirstSeen`).
     */
    method GetGraphData(accounts: map<string, AccountState>) returns (nodes: set<GraphNode>, links: seq<GraphLink>)
      ensures nodes == NodeSet(Endpoints(recentEvents), accounts)
      ensures forall id :: id in Endpoints(recentEvents) ==> NodeOf(accounts, id) in nodes
      ensures forall n :: n in nodes ==> n.id in Endpoints(recentEvents) && n.labelText == n.id && n.state == StateIn(accounts, n.id)
      ensures forall i, j :: 0 <= i < j < |links| ==>
        (links[i].source, links[i].target) != (links[j].source, links[j].target)
      ensures (set l | l in links :: (l.source, l.target)) == Pairs(recentEvents)
      ensures |links| == |PairOrder(recentEvents)| &&
        forall j :: 0 <= j < |links| ==> (links[j].source, links[j].target) == PairOrder(recentEvents)[j]
      ensures forall l :: l in links ==>
        && l.amount == PairAmount(recentEvents, l.source, l.target)
        && l.count == PairCount(recentEvents, l.source, l.target)
        && l.count >= 1
        && l.source in Endpoints(recentEvents) && l.target in Endpoints(recentEvents)
    {
      var evs := recentEvents;
      var nodeIds, keys, table := ScanEvents(evs);
      nodes := NodesFor(nodeIds, accounts);
      NodeSetExact(nodeIds, accounts);
      links := LinksOf(keys, table);
      LinksOfTable(evs, keys, table);
    }
  }
}
