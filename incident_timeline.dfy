/**
 * The dashboard's incident timeline (frontend/src/components/incidentTimelineModel.ts):
 * which accounts appear, the four steps shown for each, and their order.
 * The frontend keeps account states and recommended actions as the API's
 * strings, so they are strings here; events are the backend's trade events.
 * JavaScript `Map`s and `Set`s iterate in insertion order, so each is a
 * duplicate-free sequence of keys (with a map beside it for a `Map`).
 */
module IncidentTimeline {
  import opened Base
  import opened Models
  import L1Screening
  import L2Gemini

  const SuspiciousAmount := 100_000

  /** The API's `UserInfo` as the timeline reads it. */
  datatype UserRow = UserRow(userId: string, state: string)

  /** The API's `ArbitrationResult` without `confidence`; strings as the frontend holds them. */
  datatype Analysis = Analysis(targetId: string, riskScore: int, recommendedAction: string, reasoning: string)

  datatype Step = Step(key: string, labelText: string, done: bool, detail: Option<string>)

  datatype Item = Item(userId: string, state: string, riskScore: Option<int>, reasoning: Option<string>, steps: seq<Step>)

  predicate Distinct<T(==)>(s: seq<T>) {
    forall i, j :: 0 <= i < j < |s| ==> s[i] != s[j]
  }

  /** `stateRank`: BANNED 3, UNDER_SURVEILLANCE 2, RESTRICTED_WITHDRAWAL 1, any other text 0. */
  function StateRank(state: string): (rank: int)
    ensures 0 <= rank <= 3
  {
    if state == "BANNED" then 3
    else if state == "UNDER_SURVEILLANCE" then 2
    else if state == "RESTRICTED_WITHDRAWAL" then 1
    else 0
  }

  /** On the backend's own state names the rank is the severity order of the verdicts. */
  lemma StateRankIsSeverity(s: AccountState)
    ensures StateRank(StateName(s)) == L2Gemini.Severity(s)
  {
  }

  /**
   * One start position of the frontend's slang pattern. It is the backend's
   * pattern without the `りょ[。.]` alternative.
   */
  predicate SlangAt(s: string, i: int)
    requires 0 <= i < |s|
  {
    || (s[i] == '振' && ((i + 1 < |s| && s[i + 1] == '込') ||
                         (i + 2 < |s| && OneOf(s[i + 1], "り込") && s[i + 2] == '込')))
    || (s[i] == 'D' && i + 3 < |s| && OneOf(s[i + 1], "でにて") && s[i + 2] == '確' && s[i + 3] == '認')
    || ('0' <= s[i] <= '9' && i + 1 < |s| && OneOf(s[i + 1], "kK千万"))
    || (StartsAt(s, i, "PayPa") && i + 5 < |s| && OneOf(s[i + 5], "ly"))
    || StartsAt(s, i, "銀行")
    || StartsAt(s, i, "口座")
    || StartsAt(s, i, "送金")
    || StartsAt(s, i, "入金確認")
  }

  predicate SlangFrom(chat: string, i: nat)
    decreases |chat| - i
  {
    i < |chat| && (SlangAt(chat, i) || SlangFrom(chat, i + 1))
  }

  /** `SLANG_PATTERN.test(chat)`. */
  predicate HasSlang(chat: string) {
    SlangFrom(chat, 0)
  }

  /** Whatever the frontend calls slang, the backend's R4 pattern matches too. */
  lemma {:induction false} SlangFromBackend(chat: string, i: nat)
    ensures SlangFrom(chat, i) ==> L1Screening.SlangFrom(chat, i)
    decreases |chat| - i
  {
    if i < |chat| {
      SlangFromBackend(chat, i + 1);
    }
  }

  /** The converse fails: the backend flags "りょ。" and the frontend does not. */
  lemma SlangBackendOnly()
    ensures L1Screening.CheckSlang("りょ。") && !HasSlang("りょ。")
  {
    var s := "りょ。";
    assert L1Screening.SlangAt(s, 0);
    assert !SlangAt(s, 0) && !SlangAt(s, 1) && !SlangAt(s, 2);
    assert !SlangFrom(s, 3);
  }

  /** `isSuspiciousEvent`: a large amount, or a chat log that is present and matches. */
  predicate IsSuspiciousEvent(e: Event) {
    e.amount >= SuspiciousAmount || (e.chatLog.Some? && HasSlang(e.chatLog.value))
  }

  /** An event suspicious for its chat alone also triggers the backend's R4, whatever its window. */
  lemma SuspiciousChatTriggersR4(total: int, count: int, e: Event)
    requires e.chatLog.Some? && HasSlang(e.chatLog.value)
    ensures R4 in L1Screening.Screening(total, count, e).triggeredRules
  {
    SlangFromBackend(e.chatLog.value, 0);
    L1Screening.ScreeningRules(total, count, e);
  }

  // ---------------------------------------------------------------------------
  // The lookup structures built before the candidates.

  /** `new Map(users.map(u => [u.user_id, u]))`: a later row for an id overwrites an earlier one. */
  function UsersById(users: seq<UserRow>): map<string, UserRow>
    decreases |users|
  {
    if users == [] then map[]
    else UsersById(users[..|users| - 1])[users[|users| - 1].userId := users[|users| - 1]]
  }

  lemma {:induction false} UsersByIdDomain(users: seq<UserRow>, id: string)
    ensures id in UsersById(users) <==> exists i :: 0 <= i < |users| && users[i].userId == id
    decreases |users|
  {
    if users != [] {
      var init := users[..|users| - 1];
      UsersByIdDomain(init, id);
      if id in UsersById(init) {
        var i :| 0 <= i < |init| && init[i].userId == id;
        assert users[i].userId == id;
      }
      if exists i :: 0 <= i < |users| && users[i].userId == id {
        var i :| 0 <= i < |users| && users[i].userId == id;
        if i < |init| { assert init[i].userId == id; }
      }
    }
  }

  /** The row kept for an id is its last row. */
  lemma {:induction false} UsersByIdLast(users: seq<UserRow>, i: int)
    requires 0 <= i < |users| && forall j :: i < j < |users| ==> users[j].userId != users[i].userId
    ensures users[i].userId in UsersById(users) && UsersById(users)[users[i].userId] == users[i]
    decreases |users|
  {
    if i < |users| - 1 {
      var init := users[..|users| - 1];
      forall j | i < j < |init| ensures init[j].userId != init[i].userId {
        assert init[j] == users[j];
      }
      UsersByIdLast(init, i);
    }
  }

  /** Insertion into a `Set` (or a new `Map` key): appended only when new. */
  function AddNew(order: seq<string>, x: string): seq<string> {
    if x in order then order else order + [x]
  }

  /** Adding the elements of `xs` one after another, in order. */
  function AddAll(order: seq<string>, xs: seq<string>): seq<string>
    decreases |xs|
  {
    if xs == [] then order else AddNew(AddAll(order, xs[..|xs| - 1]), xs[|xs| - 1])
  }

  lemma AddAllSingle(order: seq<string>, x: string)
    ensures AddAll(order, [x]) == if x in order then order else order + [x]
  {
    assert [x][..0] == [];
  }

  lemma {:induction false} AddAllMembers(order: seq<string>, xs: seq<string>, x: string)
    ensures x in AddAll(order, xs) <==> x in order || x in xs
    decreases |xs|
  {
    if xs != [] {
      AddAllMembers(order, xs[..|xs| - 1], x);
      assert xs == xs[..|xs| - 1] + [xs[|xs| - 1]];
    }
  }

  lemma {:induction false} AddAllDistinct(order: seq<string>, xs: seq<string>)
    requires Distinct(order)
    ensures Distinct(AddAll(order, xs))
    decreases |xs|
  {
    if xs != [] {
      AddAllDistinct(order, xs[..|xs| - 1]);
    }
  }

  /** `latestAnalysisByUser`: the first analysis in array order wins for each target. */
  function FirstByTarget(analyses: seq<Analysis>): map<string, Analysis>
    decreases |analyses|
  {
    if analyses == [] then map[]
    else
      var m := FirstByTarget(analyses[..|analyses| - 1]);
      var a := analyses[|analyses| - 1];
      if a.targetId in m then m else m[a.targetId := a]
  }

  lemma {:induction false} FirstByTargetDomain(analyses: seq<Analysis>, t: string)
    ensures t in FirstByTarget(analyses) <==> exists i :: 0 <= i < |analyses| && analyses[i].targetId == t
    decreases |analyses|
  {
    if analyses != [] {
      var init := analyses[..|analyses| - 1];
      FirstByTargetDomain(init, t);
      if t in FirstByTarget(init) {
        var i :| 0 <= i < |init| && init[i].targetId == t;
        assert analyses[i].targetId == t;
      }
      if exists i :: 0 <= i < |analyses| && analyses[i].targetId == t {
        var i :| 0 <= i < |analyses| && analyses[i].targetId == t;
        if i < |init| { assert init[i].targetId == t; }
      }
    }
  }

  /** The analysis kept for a target is its first one. */
  lemma {:induction false} FirstByTargetFirst(analyses: seq<Analysis>, i: int)
    requires 0 <= i < |analyses| && forall j :: 0 <= j < i ==> analyses[j].targetId != analyses[i].targetId
    ensures analyses[i].targetId in FirstByTarget(analyses)
    ensures FirstByTarget(analyses)[analyses[i].targetId] == analyses[i]
    decreases |analyses|
  {
    var init := analyses[..|analyses| - 1];
    if i == |analyses| - 1 {
      FirstByTargetDomain(init, analyses[i].targetId);
      forall j | 0 <= j < |init| ensures init[j].targetId != analyses[i].targetId {
        assert init[j] == analyses[j];
      }
    } else {
      forall j | 0 <= j < i ensures init[j].targetId != init[i].targetId {
        assert init[j] == analyses[j];
      }
      FirstByTargetFirst(init, i);
    }
  }

  function Targets(analyses: seq<Analysis>): seq<string> {
    seq(|analyses|, i requires 0 <= i < |analyses| => analyses[i].targetId)
  }

  /** The keys of `latestAnalysisByUser` in insertion order. */
  function AnalysedIds(analyses: seq<Analysis>): seq<string> {
    AddAll([], Targets(analyses))
  }

  /** `events.filter(isSuspiciousEvent).map(e => e.target_id)`. */
  function SuspiciousTargets(events: seq<Event>): seq<string>
    decreases |events|
  {
    if events == [] then []
    else
      var e := events[|events| - 1];
      SuspiciousTargets(events[..|events| - 1]) + (if IsSuspiciousEvent(e) then [e.targetId] else [])
  }

  lemma {:induction false} SuspiciousTargetsMembers(events: seq<Event>, t: string)
    ensures t in SuspiciousTargets(events) <==>
      exists i :: 0 <= i < |events| && events[i].targetId == t && IsSuspiciousEvent(events[i])
    decreases |events|
  {
    if events != [] {
      var init := events[..|events| - 1];
      SuspiciousTargetsMembers(init, t);
      if t in SuspiciousTargets(init) {
        var i :| 0 <= i < |init| && init[i].targetId == t && IsSuspiciousEvent(init[i]);
        assert events[i] == init[i];
      }
      if exists i :: 0 <= i < |events| && events[i].targetId == t && IsSuspiciousEvent(events[i]) {
        var i :| 0 <= i < |events| && events[i].targetId == t && IsSuspiciousEvent(events[i]);
        if i < |init| { assert init[i] == events[i]; }
      }
    }
  }

  /** `suspiciousEventTargets`, the `Set` built from those targets. */
  function SuspiciousSet(events: seq<Event>): seq<string> {
    AddAll([], SuspiciousTargets(events))
  }

  /** The ids of the users whose state is not NORMAL, in array order. */
  function FlaggedUsers(users: seq<UserRow>): seq<string>
    decreases |users|
  {
    if users == [] then []
    else
      var u := users[|users| - 1];
      FlaggedUsers(users[..|users| - 1]) + (if u.state != "NORMAL" then [u.userId] else [])
  }

  lemma {:induction false} FlaggedUsersMembers(users: seq<UserRow>, id: string)
    ensures id in FlaggedUsers(users) <==>
      exists i :: 0 <= i < |users| && users[i].userId == id && users[i].state != "NORMAL"
    decreases |users|
  {
    if users != [] {
      var init := users[..|users| - 1];
      FlaggedUsersMembers(init, id);
      if id in FlaggedUsers(init) {
        var i :| 0 <= i < |init| && init[i].userId == id && init[i].state != "NORMAL";
        assert users[i] == init[i];
      }
      if exists i :: 0 <= i < |users| && users[i].userId == id && users[i].state != "NORMAL" {
        var i :| 0 <= i < |users| && users[i].userId == id && users[i].state != "NORMAL";
        if i < |init| { assert init[i] == users[i]; }
      }
    }
  }

  /** `candidateIds`: flagged users, then analysed targets, then suspicious-event targets. */
  function Candidates(users: seq<UserRow>, events: seq<Event>, analyses: seq<Analysis>): seq<string> {
    AddAll(AddAll(AddAll([], FlaggedUsers(users)), AnalysedIds(analyses)), SuspiciousSet(events))
  }

  /**
   * An account is a candidate exactly when some row shows it outside NORMAL,
   * some analysis targets it, or some suspicious event is addressed to it;
   * each candidate is listed once.
   */
  lemma CandidatesExactly(users: seq<UserRow>, events: seq<Event>, analyses: seq<Analysis>, id: string)
    ensures id in Candidates(users, events, analyses) <==>
      || (exists i :: 0 <= i < |users| && users[i].userId == id && users[i].state != "NORMAL")
      || (exists i :: 0 <= i < |analyses| && analyses[i].targetId == id)
      || (exists i :: 0 <= i < |events| && events[i].targetId == id && IsSuspiciousEvent(events[i]))
    ensures Distinct(Candidates(users, events, analyses))
  {
    var flagged := AddAll([], FlaggedUsers(users));
    var both := AddAll(flagged, AnalysedIds(analyses));
    AddAllMembers(both, SuspiciousSet(events), id);
    AddAllMembers([], SuspiciousTargets(events), id);
    SuspiciousTargetsMembers(events, id);
    AddAllMembers(flagged, AnalysedIds(analyses), id);
    AnalysedIdsMembers(analyses, id);
    AddAllMembers([], FlaggedUsers(users), id);
    FlaggedUsersMembers(users, id);
    AddAllDistinct([], FlaggedUsers(users));
    AddAllDistinct(flagged, AnalysedIds(analyses));
    AddAllDistinct(both, SuspiciousSet(events));
  }

  lemma AnalysedIdsMembers(analyses: seq<Analysis>, t: string)
    ensures t in AnalysedIds(analyses) <==> exists i :: 0 <= i < |analyses| && analyses[i].targetId == t
    ensures t in AnalysedIds(analyses) <==> t in FirstByTarget(analyses)
  {
    AddAllMembers([], Targets(analyses), t);
    FirstByTargetDomain(analyses, t);
    if t in Targets(analyses) {
      var i :| 0 <= i < |analyses| && Targets(analyses)[i] == t;
      assert analyses[i].targetId == t;
    }
    if exists i :: 0 <= i < |analyses| && analyses[i].targetId == t {
      var i :| 0 <= i < |analyses| && analyses[i].targetId == t;
      assert Targets(analyses)[i] == t;
    }
  }

  // ---------------------------------------------------------------------------
  // Items and their order.

  /** The timeline item of one candidate, with its four steps. */
  function ItemFor(userId: string, usersById: map<string, UserRow>, latest: map<string, Analysis>,
                   suspicious: seq<string>): Item
  {
    var state := if userId in usersById then usersById[userId].state
                 else if userId in latest then latest[userId].recommendedAction
                 else "NORMAL";
    var analysed := userId in latest;
    Item(userId, state,
         if analysed then Some(latest[userId].riskScore) else None,
         if analysed then Some(latest[userId].reasoning) else None,
         [Step("l1", "L1 Flagged", userId in suspicious, None),
          Step("withdraw", "Withdraw Restricted", state != "NORMAL", None),
          Step("l2", "L2 Analyzed", analysed,
               if analysed then Some("risk " + IntToString(latest[userId].riskScore)) else None),
          Step("final", "Final: " + state, state != "NORMAL", None)])
  }

  function Items(ids: seq<string>, usersById: map<string, UserRow>, latest: map<string, Analysis>,
                 suspicious: seq<string>): (items: seq<Item>)
    ensures |items| == |ids|
  {
    seq(|ids|, i requires 0 <= i < |ids| => ItemFor(ids[i], usersById, latest, suspicious))
  }

  /** A missing risk score sorts as -1. */
  function RiskKey(a: Item): int {
    a.riskScore.GetOr(-1)
  }

  /**
   * The sort comparator is negative: higher rank first, then higher risk,
   * then the smaller user id.
   */
  predicate Before(a: Item, b: Item) {
    if StateRank(a.state) != StateRank(b.state) then StateRank(a.state) > StateRank(b.state)
    else if RiskKey(a) != RiskKey(b) then RiskKey(a) > RiskKey(b)
    else StrLess(a.userId, b.userId)
  }

  lemma BeforeAsymmetric(a: Item, b: Item)
    requires Before(a, b)
    ensures !Before(b, a)
  {
    if StateRank(a.state) == StateRank(b.state) && RiskKey(a) == RiskKey(b) {
      StrLessAsymmetric(a.userId, b.userId);
    }
  }

  /** Items of different users are always ordered one way or the other. */
  lemma BeforeTotal(a: Item, b: Item)
    requires a.userId != b.userId
    ensures Before(a, b) || Before(b, a)
  {
    StrLessTotal(a.userId, b.userId);
  }

  /** "Not after" is transitive, so sorting by this comparator is well defined. */
  lemma NotAfterTransitive(a: Item, b: Item, c: Item)
    requires !Before(b, a) && !Before(c, b)
    ensures !Before(c, a)
  {
    if StateRank(a.state) == StateRank(b.state) == StateRank(c.state) && RiskKey(a) == RiskKey(b) == RiskKey(c) {
      if StrLess(c.userId, a.userId) {
        if a.userId != b.userId { StrLessTotal(a.userId, b.userId); }
        if b.userId != c.userId { StrLessTotal(b.userId, c.userId); }
        if a.userId != b.userId && b.userId != c.userId {
          StrLessTransitive(a.userId, b.userId, c.userId);
        }
        StrLessAsymmetric(c.userId, a.userId);
      }
    }
  }

  /** No item is ever placed after one it should precede. */
  predicate Sorted(s: seq<Item>) {
    forall i, j :: 0 <= i < j < |s| ==> !Before(s[j], s[i])
  }

  predicate DistinctIds(s: seq<Item>) {
    forall i, j :: 0 <= i < j < |s| ==> s[i].userId != s[j].userId
  }

  function Insert(x: Item, s: seq<Item>): (r: seq<Item>)
    ensures |r| == |s| + 1
    decreases |s|
  {
    if s == [] then [x]
    else if Before(s[0], x) then [s[0]] + Insert(x, s[1..])
    else [x] + s
  }

  /** `timeline.sort(comparator)`, written as an insertion sort. */
  function SortItems(s: seq<Item>): (r: seq<Item>)
    ensures |r| == |s|
    decreases |s|
  {
    if s == [] then [] else Insert(s[0], SortItems(s[1..]))
  }

  lemma {:induction false} InsertPermutation(x: Item, s: seq<Item>)
    ensures multiset(Insert(x, s)) == multiset(s) + multiset{x}
    decreases |s|
  {
    if s != [] && Before(s[0], x) {
      InsertPermutation(x, s[1..]);
      assert s == [s[0]] + s[1..];
    }
  }

  lemma {:induction false} InsertSorted(x: Item, s: seq<Item>)
    requires Sorted(s)
    ensures Sorted(Insert(x, s))
    decreases |s|
  {
    if s != [] {
      if Before(s[0], x) {
        var rest := Insert(x, s[1..]);
        InsertSorted(x, s[1..]);
        InsertMembers(x, s[1..]);
        BeforeAsymmetric(s[0], x);
        forall j | 0 <= j < |rest| ensures !Before(rest[j], s[0]) {
          assert rest[j] in rest;
          if rest[j] != x {
            var k :| 0 <= k < |s[1..]| && s[1..][k] == rest[j];
            assert s[k + 1] == rest[j];
          }
        }
        var r := [s[0]] + rest;
        forall i, j | 0 <= i < j < |r| ensures !Before(r[j], r[i]) {
          assert r[j] == rest[j - 1];
          if i > 0 {
            assert r[i] == rest[i - 1];
          }
        }
      } else {
        forall j | 0 <= j < |s| ensures !Before(s[j], x) {
          if j > 0 { NotAfterTransitive(x, s[0], s[j]); }
        }
        assert forall j :: 1 <= j < |s| + 1 ==> ([x] + s)[j] == s[j - 1];
      }
    }
  }

  lemma {:induction false} InsertDistinct(x: Item, s: seq<Item>)
    requires DistinctIds(s) && forall k :: 0 <= k < |s| ==> s[k].userId != x.userId
    ensures DistinctIds(Insert(x, s))
    decreases |s|
  {
    if s != [] && Before(s[0], x) {
      var rest := Insert(x, s[1..]);
      InsertDistinct(x, s[1..]);
      InsertMembers(x, s[1..]);
      forall j | 0 <= j < |rest| ensures rest[j].userId != s[0].userId {
        assert rest[j] in rest;
        if rest[j] != x {
          var k :| 0 <= k < |s[1..]| && s[1..][k] == rest[j];
          assert s[k + 1] == rest[j];
        }
      }
    }
  }

  lemma {:induction false} InsertMembers(x: Item, s: seq<Item>)
    ensures forall y :: y in Insert(x, s) <==> y == x || y in s
    decreases |s|
  {
    if s != [] && Before(s[0], x) {
      InsertMembers(x, s[1..]);
      assert s == [s[0]] + s[1..];
    }
  }

  lemma {:induction false} SortItemsOrdered(s: seq<Item>)
    ensures Sorted(SortItems(s))
    decreases |s|
  {
    if s != [] {
      SortItemsOrdered(s[1..]);
      InsertSorted(s[0], SortItems(s[1..]));
    }
  }

  lemma {:induction false} SortItemsPermutation(s: seq<Item>)
    ensures multiset(SortItems(s)) == multiset(s)
    decreases |s|
  {
    if s != [] {
      SortItemsPermutation(s[1..]);
      InsertPermutation(s[0], SortItems(s[1..]));
      assert s == [s[0]] + s[1..];
    }
  }

  lemma {:induction false} SortItemsDistinct(s: seq<Item>)
    requires DistinctIds(s)
    ensures DistinctIds(SortItems(s))
    decreases |s|
  {
    if s != [] {
      var tail := SortItems(s[1..]);
      assert DistinctIds(s[1..]);
      SortItemsDistinct(s[1..]);
      SortItemsPermutation(s[1..]);
      forall k | 0 <= k < |tail| ensures tail[k].userId != s[0].userId {
        assert tail[k] in multiset(s[1..]);
        var m :| 0 <= m < |s[1..]| && s[1..][m] == tail[k];
        assert s[m + 1] == tail[k];
      }
      InsertDistinct(s[0], tail);
    }
  }

  /** The sort is a permutation into comparator order, and keeps user ids distinct. */
  lemma SortItemsSorted(s: seq<Item>)
    ensures Sorted(SortItems(s))
    ensures multiset(SortItems(s)) == multiset(s)
    ensures DistinctIds(s) ==> DistinctIds(SortItems(s))
  {
    SortItemsOrdered(s);
    SortItemsPermutation(s);
    if DistinctIds(s) {
      SortItemsDistinct(s);
    }
  }

  // ---------------------------------------------------------------------------
  // The timeline.

  /** `buildIncidentTimeline` as a function of its inputs: the sorted items, cut at the limit. */
  function Timeline(users: seq<UserRow>, events: seq<Event>, analyses: seq<Analysis>, limit: int): seq<Item> {
    var items := Items(Candidates(users, events, analyses), UsersById(users), FirstByTarget(analyses), SuspiciousSet(events));
    var sorted := SortItems(items);
    sorted[..Min(|sorted|, Max(0, limit))]
  }

  /** The loop that fills `latestAnalysisByUser`: its keys in insertion order and the map itself. */
  method LatestAnalyses(analyses: seq<Analysis>) returns (keys: seq<string>, latest: map<string, Analysis>)
    ensures keys == AnalysedIds(analyses) && latest == FirstByTarget(analyses)
  {
    keys, latest := [], map[];
    for i := 0 to |analyses|
      invariant keys == AnalysedIds(analyses[..i]) && latest == FirstByTarget(analyses[..i])
      invariant forall t :: t in keys <==> t in latest
    {
      var a := analyses[i];
      assert analyses[..i + 1][..i] == analyses[..i];
      assert Targets(analyses[..i + 1]) == Targets(analyses[..i]) + [a.targetId];
      if a.targetId !in latest {
        latest := latest[a.targetId := a];
        keys := keys + [a.targetId];
      }
    }
    assert analyses[..|analyses|] == analyses;
  }

  /** Adding every element of `xs` to the `Set` `ids`, in order. */
  method AddEach(ids: seq<string>, xs: seq<string>) returns (r: seq<string>)
    ensures r == AddAll(ids, xs)
  {
    r := ids;
    for i := 0 to |xs|
      invariant r == AddAll(ids, xs[..i])
    {
      assert xs[..i + 1][..i] == xs[..i];
      if xs[i] !in r {
        r := r + [xs[i]];
      }
    }
    assert xs[..|xs|] == xs;
  }

  /** The three loops that fill `candidateIds`. */
  method CandidateIds(users: seq<UserRow>, analysed: seq<string>, suspicious: seq<string>) returns (ids: seq<string>)
    ensures ids == AddAll(AddAll(AddAll([], FlaggedUsers(users)), analysed), suspicious)
  {
    ids := [];
    for i := 0 to |users|
      invariant ids == AddAll([], FlaggedUsers(users[..i]))
    {
      assert users[..i + 1][..i] == users[..i];
      ghost var flagged := FlaggedUsers(users[..i]);
      if users[i].state != "NORMAL" {
        assert FlaggedUsers(users[..i + 1]) == flagged + [users[i].userId];
        assert (flagged + [users[i].userId])[..|flagged|] == flagged;
      } else {
        assert FlaggedUsers(users[..i + 1]) == flagged;
      }
      if users[i].state != "NORMAL" && users[i].userId !in ids {
        ids := ids + [users[i].userId];
      }
    }
    assert users[..|users|] == users;
    ids := AddEach(ids, analysed);
    ids := AddEach(ids, suspicious);
  }

  /** `buildIncidentTimeline`. */
  method BuildIncidentTimeline(users: seq<UserRow>, events: seq<Event>, analyses: seq<Analysis>, limit: int)
    returns (timeline: seq<Item>)
    ensures timeline == Timeline(users, events, analyses, limit)
  {
    var usersById := UsersById(users);
    var analysed, latest := LatestAnalyses(analyses);
    var suspicious := SuspiciousSet(events);
    var ids := CandidateIds(users, analysed, suspicious);
    var items := Items(ids, usersById, latest, suspicious);
    var sorted := SortItems(items);
    timeline := sorted[..Min(|sorted|, Max(0, limit))];
  }

  /** Sorted items of distinct users are in strict comparator order. */
  lemma SortedStrict(s: seq<Item>)
    requires Sorted(s) && DistinctIds(s)
    ensures forall i, j :: 0 <= i < j < |s| ==> Before(s[i], s[j])
  {
    forall i, j | 0 <= i < j < |s| ensures Before(s[i], s[j]) {
      BeforeTotal(s[i], s[j]);
    }
  }

  lemma ItemsDistinct(ids: seq<string>, usersById: map<string, UserRow>, latest: map<string, Analysis>,
                      suspicious: seq<string>)
    requires Distinct(ids)
    ensures DistinctIds(Items(ids, usersById, latest, suspicious))
  {
  }

  /**
   * Cutting the sorted items of distinct users at n: strict order, distinct
   * users, only given items, and each given item either kept or preceded by
   * every kept one.
   */
  lemma SortedPrefix(items: seq<Item>, n: int)
    requires DistinctIds(items) && 0 <= n <= |items|
    ensures var t := SortItems(items)[..n];
      && DistinctIds(t)
      && (forall i, j :: 0 <= i < j < |t| ==> Before(t[i], t[j]))
      && (forall i :: 0 <= i < |t| ==> t[i] in items)
      && (forall k :: 0 <= k < |items| ==> items[k] in t || forall i :: 0 <= i < |t| ==> Before(t[i], items[k]))
      && (n == |items| ==> forall k :: 0 <= k < |items| ==> items[k] in t)
  {
    var sorted := SortItems(items);
    var t := sorted[..n];
    SortItemsSorted(items);
    SortedStrict(sorted);
    forall i | 0 <= i < |t| ensures t[i] in items {
      assert t[i] == sorted[i] && sorted[i] in multiset(items);
    }
    forall k | 0 <= k < |items|
      ensures items[k] in t || forall i :: 0 <= i < |t| ==> Before(t[i], items[k])
      ensures n == |items| ==> items[k] in t
    {
      assert items[k] in multiset(sorted);
      var m :| 0 <= m < |sorted| && sorted[m] == items[k];
      if m < n {
        assert t[m] == items[k];
      }
    }
  }

  lemma CandidatesDistinct(users: seq<UserRow>, events: seq<Event>, analyses: seq<Analysis>)
    ensures Distinct(Candidates(users, events, analyses))
  {
    var flagged := AddAll([], FlaggedUsers(users));
    var both := AddAll(flagged, AnalysedIds(analyses));
    AddAllDistinct([], FlaggedUsers(users));
    AddAllDistinct(flagged, AnalysedIds(analyses));
    AddAllDistinct(both, SuspiciousSet(events));
  }

  /**
   * The timeline holds min(candidates, max(0, limit)) items with distinct
   * ids, in strict comparator order.
   */
  lemma TimelineOrder(users: seq<UserRow>, events: seq<Event>, analyses: seq<Analysis>, limit: int)
    ensures var t := Timeline(users, events, analyses, limit);
      && |t| == Min(|Candidates(users, events, analyses)|, Max(0, limit))
      && DistinctIds(t)
      && (forall i, j :: 0 <= i < j < |t| ==> Before(t[i], t[j]))
  {
    var cands := Candidates(users, events, analyses);
    var usersById, latest, suspicious := UsersById(users), FirstByTarget(analyses), SuspiciousSet(events);
    var items := Items(cands, usersById, latest, suspicious);
    CandidatesDistinct(users, events, analyses);
    ItemsDistinct(cands, usersById, latest, suspicious);
    SortedPrefix(items, Min(|items|, Max(0, limit)));
  }

  /** Every item shown is the item built for a candidate id. */
  lemma TimelineItems(users: seq<UserRow>, events: seq<Event>, analyses: seq<Analysis>, limit: int)
    ensures var t := Timeline(users, events, analyses, limit);
      forall i :: 0 <= i < |t| ==>
        && t[i].userId in Candidates(users, events, analyses)
        && t[i] == ItemFor(t[i].userId, UsersById(users), FirstByTarget(analyses), SuspiciousSet(events))
  {
    var cands := Candidates(users, events, analyses);
    var usersById, latest, suspicious := UsersById(users), FirstByTarget(analyses), SuspiciousSet(events);
    var items := Items(cands, usersById, latest, suspicious);
    CandidatesDistinct(users, events, analyses);
    ItemsDistinct(cands, usersById, latest, suspicious);
    SortedPrefix(items, Min(|items|, Max(0, limit)));
    var t := Timeline(users, events, analyses, limit);
    forall i | 0 <= i < |t|
      ensures t[i].userId in cands && t[i] == ItemFor(t[i].userId, usersById, latest, suspicious)
    {
      var k :| 0 <= k < |items| && items[k] == t[i];
    }
  }

  /**
   * Every candidate is shown or comes after every item shown; with a large
   * enough limit every candidate is shown.
   */
  lemma TimelineCoverage(users: seq<UserRow>, events: seq<Event>, analyses: seq<Analysis>, limit: int)
    ensures var cands := Candidates(users, events, analyses);
      var t := Timeline(users, events, analyses, limit);
      && (forall id :: id in cands ==>
            (exists i :: 0 <= i < |t| && t[i].userId == id) ||
            (forall i :: 0 <= i < |t| ==>
               Before(t[i], ItemFor(id, UsersById(users), FirstByTarget(analyses), SuspiciousSet(events)))))
      && (Max(0, limit) >= |cands| ==> forall id :: id in cands ==> exists i :: 0 <= i < |t| && t[i].userId == id)
  {
    var cands := Candidates(users, events, analyses);
    var usersById, latest, suspicious := UsersById(users), FirstByTarget(analyses), SuspiciousSet(events);
    var items := Items(cands, usersById, latest, suspicious);
    CandidatesDistinct(users, events, analyses);
    ItemsDistinct(cands, usersById, latest, suspicious);
    SortedPrefix(items, Min(|items|, Max(0, limit)));
    var t := Timeline(users, events, analyses, limit);
    forall id | id in cands
      ensures (exists i :: 0 <= i < |t| && t[i].userId == id) ||
              (forall i :: 0 <= i < |t| ==> Before(t[i], ItemFor(id, usersById, latest, suspicious)))
      ensures Max(0, limit) >= |cands| ==> exists i :: 0 <= i < |t| && t[i].userId == id
    {
      var k :| 0 <= k < |cands| && cands[k] == id;
      assert items[k] == ItemFor(id, usersById, latest, suspicious);
      if items[k] in t {
        var i :| 0 <= i < |t| && t[i] == items[k];
      }
    }
  }

  /**
   * What an item shows, in terms of the inputs: four steps keyed l1,
   * withdraw, l2, final; L1 done iff a suspicious event targets the user; L2
   * done iff an analysis targets the user, with the first analysis's risk and
   * reasoning; the state is the last user row's, else the first analysis's
   * recommendation, else NORMAL; withdraw and final are done iff that state
   * is not NORMAL.
   */
  lemma ItemMeaning(users: seq<UserRow>, events: seq<Event>, analyses: seq<Analysis>, id: string)
    ensures var item := ItemFor(id, UsersById(users), FirstByTarget(analyses), SuspiciousSet(events));
      && item.userId == id
      && |item.steps| == 4
      && item.steps[0].key == "l1" && item.steps[1].key == "withdraw"
      && item.steps[2].key == "l2" && item.steps[3].key == "final"
      && (item.steps[0].done <==>
            exists i :: 0 <= i < |events| && events[i].targetId == id && IsSuspiciousEvent(events[i]))
      && (item.steps[1].done <==> item.state != "NORMAL")
      && (item.steps[3].done <==> item.state != "NORMAL")
      && item.steps[3].labelText == "Final: " + item.state
      && (item.steps[2].done <==> exists i :: 0 <= i < |analyses| && analyses[i].targetId == id)
      && (item.riskScore.Some? <==> item.steps[2].done)
      && (forall i :: (0 <= i < |users| && users[i].userId == id &&
                       forall j :: i < j < |users| ==> users[j].userId != id) ==>
            item.state == users[i].state)
      && (forall i :: (0 <= i < |analyses| && analyses[i].targetId == id &&
                       forall j :: 0 <= j < i ==> analyses[j].targetId != id) ==>
              && item.riskScore == Some(analyses[i].riskScore)
              && item.reasoning == Some(analyses[i].reasoning)
              && item.steps[2].detail == Some("risk " + IntToString(analyses[i].riskScore))
              && ((forall k :: 0 <= k < |users| ==> users[k].userId != id) ==>
                    item.state == analyses[i].recommendedAction))
      && (((forall k :: 0 <= k < |users| ==> users[k].userId != id) &&
           (forall k :: 0 <= k < |analyses| ==> analyses[k].targetId != id)) ==>
            item.state == "NORMAL")
  {
    UsersByIdDomain(users, id);
    FirstByTargetDomain(analyses, id);
    AddAllMembers([], SuspiciousTargets(events), id);
    SuspiciousTargetsMembers(events, id);
    forall i | 0 <= i < |users| && users[i].userId == id && (forall j :: i < j < |users| ==> users[j].userId != id) {
      UsersByIdLast(users, i);
    }
    forall i | 0 <= i < |analyses| && analyses[i].targetId == id && (forall j :: 0 <= j < i ==> analyses[j].targetId != id) {
      FirstByTargetFirst(analyses, i);
    }
  }

  /** The shared event of the timeline's two worked examples, addressed to `targetId`. */
  function ExampleEvent(targetId: string): Event {
    Event("evt_1", Some(1771675200), "TRADE", "user_mule_01", targetId, 250_000,
          Some("itm_wood_stick_01"), Some(10), 2, 1, Some("Dで確認しました"))
  }

  function ExampleAnalysis(targetId: string, action: string, risk: int): Analysis {
    Analysis(targetId, risk, action, "短時間で複数送信者から集約")
  }

  /** The lookups of the first worked example: one candidate, one row, one analysis. */
  lemma ExampleBannedLookups(boss: string)
    ensures var users, events := [UserRow(boss, "BANNED")], [ExampleEvent(boss)];
      var analyses := [ExampleAnalysis(boss, "BANNED", 95)];
      && Candidates(users, events, analyses) == [boss]
      && UsersById(users) == map[boss := users[0]]
      && FirstByTarget(analyses) == map[boss := analyses[0]]
      && SuspiciousSet(events) == [boss]
  {
    var users, events, analyses := [UserRow(boss, "BANNED")], [ExampleEvent(boss)], [ExampleAnalysis(boss, "BANNED", 95)];
    assert FlaggedUsers(users) == [boss] by {
      assert users[..0] == [];
    }
    assert Targets(analyses) == [boss];
    assert SuspiciousTargets(events) == [boss] by {
      assert events[..0] == [];
    }
    assert UsersById(users) == map[boss := users[0]] by {
      assert users[..0] == [];
    }
    assert FirstByTarget(analyses) == map[boss := analyses[0]] by {
      assert analyses[..0] == [];
    }
    AddAllSingle([], boss);
    AddAllSingle([boss], boss);
  }

  /** The item of the first worked example. */
  lemma ExampleBannedItem(boss: string)
    ensures ItemFor(boss, map[boss := UserRow(boss, "BANNED")], map[boss := ExampleAnalysis(boss, "BANNED", 95)], [boss]).steps
      == [Step("l1", "L1 Flagged", true, None),
          Step("withdraw", "Withdraw Restricted", true, None),
          Step("l2", "L2 Analyzed", true, Some("risk 95")),
          Step("final", "Final: BANNED", true, None)]
  {
    assert NatToString(9) == "9" && IntToString(95) == "95";
    assert "risk " + IntToString(95) == "risk 95";
    assert "Final: " + "BANNED" == "Final: BANNED";
  }

  /** A one-candidate timeline with room for an item is that candidate's item. */
  lemma SingleTimeline(users: seq<UserRow>, events: seq<Event>, analyses: seq<Analysis>, limit: int, id: string)
    requires Candidates(users, events, analyses) == [id] && limit >= 1
    ensures Timeline(users, events, analyses, limit) ==
      [ItemFor(id, UsersById(users), FirstByTarget(analyses), SuspiciousSet(events))]
  {
    var item := ItemFor(id, UsersById(users), FirstByTarget(analyses), SuspiciousSet(events));
    assert Items([id], UsersById(users), FirstByTarget(analyses), SuspiciousSet(events)) == [item];
    assert SortItems([item]) == [item] by {
      assert [item][1..] == [];
    }
  }

  /** A BANNED account with a suspicious event and an analysis shows all four steps done. */
  lemma ExampleBannedAccount(boss: string)
    ensures var t := Timeline([UserRow(boss, "BANNED")], [ExampleEvent(boss)], [ExampleAnalysis(boss, "BANNED", 95)], 10);
      && |t| == 1 && t[0].userId == boss && t[0].state == "BANNED"
      && t[0].steps == [Step("l1", "L1 Flagged", true, None),
                        Step("withdraw", "Withdraw Restricted", true, None),
                        Step("l2", "L2 Analyzed", true, Some("risk 95")),
                        Step("final", "Final: BANNED", true, None)]
  {
    var users, events, analyses := [UserRow(boss, "BANNED")], [ExampleEvent(boss)], [ExampleAnalysis(boss, "BANNED", 95)];
    ExampleBannedLookups(boss);
    SingleTimeline(users, events, analyses, 10, boss);
    ExampleBannedItem(boss);
  }

  /** An account known only from an analysis appears with the analysis's recommended state. */
  lemma ExampleAnalysedOnly()
    ensures var d := "user_layer_D";
      var t := Timeline([], [ExampleEvent(d)], [ExampleAnalysis(d, "UNDER_SURVEILLANCE", 70)], 10);
      |t| == 1 && t[0].userId == d && t[0].state == "UNDER_SURVEILLANCE"
  {
    var d := "user_layer_D";
    var events, analyses := [ExampleEvent(d)], [ExampleAnalysis(d, "UNDER_SURVEILLANCE", 70)];
    AddAllSingle([], d);
    AddAllSingle([d], d);
    assert Targets(analyses) == [d];
    assert SuspiciousTargets(events) == [d] by {
      assert events[..0] == [];
    }
    assert AddAll([], FlaggedUsers([])) == [];
    assert Candidates([], events, analyses) == [d];
    assert FirstByTarget(analyses) == map[d := analyses[0]] by {
      assert analyses[..0] == [];
    }
  }
}
