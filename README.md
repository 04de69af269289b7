# RMT fraud screening core, modelled in Dafny

This project models the core of an RMT (real-money trading) fraud detector.
On the backend, each in-game trade event passes two layers of checks:

- **L1** checks four fixed rules over a five-minute window:
  - R1: the total amount received;
  - R2: the number of transactions;
  - R3: the price against the market average;
  - R4: trading slang in the chat log.
- **L2** then either asks an LLM for a verdict or falls back to a local rule-based one.
- A **state machine** holds four account states: NORMAL, RESTRICTED_WITHDRAWAL, UNDER_SURVEILLANCE and BANNED. Their allowed moves are fixed by a table, every accepted move is logged, and the state decides whether a withdrawal passes.

The frontend has three pure parts that are modelled too:

- the **incident timeline** ranks the accounts worth showing;
- the **network graph's effect predicates** decide which state changes are highlighted, when an account glows as banned, and which links count as suspicious;
- the **node change detector** marks nodes whose state changed since the previous snapshot.

Modules, one per core file:

| file | module | form |
|---|---|---|
| `base.dfy` | `Base` | shared helpers: `Option`, Python's `reversed(s[-limit:])`, text conversions, a code-point string order |
| `models.dfy` | `Models` | the value records of `backend/models.py` |
| `state_machine.dfy` | `Accounts` | the transition table as functions; the `StateMachine` class with its account map, insertion order, log and counter |
| `l1_screening.dfy` | `L1Screening` | the rule functions; the `UserWindow` and `L1Engine` classes; the graph aggregation loop as a method |
| `l2_gemini.dfy` | `L2Gemini` | the fallback verdict and the reply normalisation as functions; the `L2Engine` class with its stored results |
| `orchestration.dfy` | `Orchestration` | the event pipeline, the L2 verdict application, withdrawals and manual release of `backend/main.py`, as methods over the engines |
| `incident_timeline.dfy` | `IncidentTimeline` | `buildIncidentTimeline` as functions, with method versions of its loops |
| `graph_cinematic.dfy` | `GraphCinematic` | the four visual-effect predicates |
| `network_graph.dfy` | `NetworkGraph` | the `ChangeTracker` class for the component's ref and state, with `OnData` running the effect's loop |

The main results are these:

- **Transitions.** Every transition log is a chain of allowed edges.
- **Stats.** The state counts add up to the number of accounts.
- **Screening.** Each rule fires exactly under its condition, and the rules are listed in R1..R4 order.
- **Fallback verdict.** Its score is monotone in the rules and the senders, and the action is the score's band.
- **Verdict application.** It ends where `VerdictOutcome` says, and it logs exactly the accepted calls.
- **Timeline.**
  - it lists exactly the candidate accounts, each once;
  - it is strictly ordered by the comparator, and it is a permutation prefix of them;
  - every step of an item means what its label says.
- **Change detector.** It marks exactly the ids whose recorded non-empty state differs, plus the ids that name `Object.prototype` members, which the source's plain-object `prevStates` reads as inherited. The same snapshot given twice marks nothing the second time, except a `__proto__` node, whose write the object ignores.

The code and the tests disagree in two places. Following the code, each disagreement is recorded as a comment beside the model, not as a proved property:

- releasing a RESTRICTED_WITHDRAWAL account (`orchestration.dfy`, module comment);
- the async Redis engine the L1 tests expect (`l1_screening.dfy`, module comment).

Separately, the frontend's slang pattern (frontend/src/components/incidentTimelineModel.ts:3) lacks the `りょ[。.]` alternative of the backend's (backend/l1_screening.py:19). `IncidentTimeline.SlangFromBackend` and `IncidentTimeline.SlangBackendOnly` state the difference.

## Model

| member | source | states |
|---|---|---|
| Models.ParseState | backend/models.py:10-14 | a state parsed from text has that text as its value, and every other text is rejected |
| Models.ParseStateName | backend/models.py:10-14 | parsing a state's value gives the state back |
| Models.ParseFraudType | backend/models.py:17-21 | a fraud type parsed from text has that text as its value |
| Models.ParseFraudTypeName | backend/models.py:17-21 | parsing a fraud type's value gives the fraud type back |
| Models.DefaultEvent | backend/models.py:24-43 | an event left at its defaults is a TRADE of amount 0, level 1, age 0, with no item, price or chat, stamped now |
| Base.NewestFirst | backend/state_machine.py:63-64 | `list(reversed(s[-limit:]))`: the length of the Python slice for positive, zero and negative limits, newest entry first |
| Accounts.AllowedEdges | backend/state_machine.py:7-12 | the table allows exactly NORMAL→RW, RW→US, US→BANNED and US→NORMAL |
| Accounts.BannedIsAbsorbing | backend/state_machine.py:7-12 | no series of transition attempts leaves BANNED |
| Accounts.LastStateAppend | backend/state_machine.py:47-48 | after a log is appended, the user it names is in its to-state and every other user is unaffected |
| Accounts.ChainedAppend | backend/state_machine.py:34-48 | appending an allowed move from the user's last logged state keeps every log chained |
| Accounts.LastStateUntouched | backend/state_machine.py:21-24 | a user with no log entry is NORMAL |
| Accounts.CountsSum | backend/state_machine.py:54-61 | the four per-state counts add up to the number of listed accounts |
| Accounts.DistinctLength | backend/state_machine.py:58 | the duplicate-free insertion order has as many entries as the account map has keys |
| Accounts.ListedExactly | backend/state_machine.py:66-72 | a user is listed exactly when registered, with its own state, and matching the filter when one is given |
| Accounts.ListedDistinct | backend/state_machine.py:66-72 | no user is listed twice |
| Accounts.InsertKeepsConsistent | backend/state_machine.py:21-24 | registering a new user as NORMAL keeps the invariant: ids listed once in insertion order, every log entry an allowed move from the previous state, every stored state the replay of its logs |
| Accounts.MoveKeepsConsistent | backend/state_machine.py:34-49 | an allowed move that is logged keeps the invariant: ids listed once in insertion order, every log entry an allowed move from the previous state, every stored state the replay of its logs |
| Accounts.StateMachine.constructor | backend/state_machine.py:16-19 | no accounts, no logs, zero blocked withdrawals |
| Accounts.StateMachine.GetOrCreate | backend/state_machine.py:21-24 | returns the stored state, or NORMAL for an unknown user, which is then registered at the end of the order; the log and counter are unchanged |
| Accounts.StateMachine.Move | backend/state_machine.py:38-48 | an allowed move sets the new state and appends exactly its log entry |
| Accounts.StateMachine.Transition | backend/state_machine.py:26-49 | succeeds exactly when the table allows the move from the current state; on success the state changes and one log entry is appended, otherwise only the get_or_create insert happens |
| Accounts.StateMachine.CanWithdraw | backend/state_machine.py:51-52 | true exactly for NORMAL accounts, an unknown user counting as NORMAL and being registered |
| Accounts.StateMachine.GetStats | backend/state_machine.py:54-61 | one count per state, adding up to the account total, plus the log length and the blocked-withdrawal counter |
| Accounts.StateMachine.GetTransitions | backend/state_machine.py:63-64 | the last `limit` logs, newest first |
| Accounts.StateMachine.GetAllUsers | backend/state_machine.py:66-72 | exactly the registered users in insertion order, with their states and no duplicates; a filter keeps only that state |
| L1Screening.SlangFromExists | backend/l1_screening.py:18-20 | the scanning search finds slang from position i exactly when an alternative matches at some position from i on |
| L1Screening.CheckSlangExists | backend/l1_screening.py:99-101 | `_check_slang` is true exactly when some alternative matches somewhere in the chat |
| L1Screening.SendersBound | backend/l1_screening.py:53-54 | there are never more distinct senders than events |
| L1Screening.PurgedShape | backend/l1_screening.py:35-45 | the purge keeps a suffix of the window, drops only expired events, and stops at the first live one |
| L1Screening.PurgeKeepsLiveEvent | backend/l1_screening.py:31-45 | an event that has not expired is still in the window after the purge that follows its append, as the newest event |
| L1Screening.RulesHitMembers | backend/l1_screening.py:69-87 | a rule is in the hit list exactly when its condition holds, and the list is empty exactly when no condition holds |
| L1Screening.RulesHitOrdered | backend/l1_screening.py:69-87 | hit rules are listed in R1, R2, R3, R4 order |
| L1Screening.ScreeningRules | backend/l1_screening.py:63-97 | R1 iff total ≥ 1,000,000; R2 iff count ≥ 10; R3 iff a positive market price times 100 is at most the amount; R4 iff the chat has slang. Also: in rule order, needs L2 iff R4, screened iff some rule fired, RESTRICTED_WITHDRAWAL recommended iff screened |
| L1Screening.Pushed | backend/l1_screening.py:60 | appending to the 200-entry deque grows it by one until it is full |
| L1Screening.PushedKeepsNewest | backend/l1_screening.py:67 | the buffer is the last up-to-200 entries of the old buffer plus the event, with the event newest |
| L1Screening.PairsWithinEndpoints | backend/l1_screening.py:126-129 | every link's two ends are among the graph's nodes |
| L1Screening.AbsentPair | backend/l1_screening.py:130-133 | a pair never traded has no amount and no count |
| L1Screening.LinkTableStep | backend/l1_screening.py:129-133 | one loop step creates the link on the pair's first event and adds the amount and one to the count |
| L1Screening.PairOrderMembers | backend/l1_screening.py:129-131 | a pair is listed in `PairOrder` exactly when some event links it, i.e. exactly the traded pairs |
| L1Screening.PairOrderFirstSeen | backend/l1_screening.py:129-131 | `PairOrder` is first-seen order: every event of a later pair is preceded by an event of each earlier pair |
| L1Screening.ScanEvents | backend/l1_screening.py:123-133 | the node ids are exactly the event endpoints; the keys are `PairOrder` (each traded pair once, in first-seen order), and the table maps each to its summed amount and event count |
| L1Screening.NodeSetExact | backend/l1_screening.py:135-138 | each node is an endpoint labelled with its id and carrying its stored state, NORMAL when unknown |
| L1Screening.NodesFor | backend/l1_screening.py:135-138 | the node loop builds exactly that node set |
| L1Screening.LinksOf | backend/l1_screening.py:140 | the links are the table's values in key order |
| L1Screening.LinksOfTable | backend/l1_screening.py:122-140 | the links are one per traded pair, in `PairOrder`, with no duplicates, each with the pair's total amount and count |
| L1Screening.UserWindow.constructor | backend/l1_screening.py:29 | an empty window |
| L1Screening.UserWindow.AddEvent | backend/l1_screening.py:31-33 | the window becomes the old one plus the event, purged at now − 300 s |
| L1Screening.UserWindow.Purge | backend/l1_screening.py:35-45 | the window becomes the purge of the old one at now − 300 s |
| L1Screening.UserWindow.UniqueSenders | backend/l1_screening.py:53-54 | the distinct sender count is at most the transaction count |
| L1Screening.L1Engine.constructor | backend/l1_screening.py:58-61 | no windows, an empty recent buffer, a zero flag count |
| L1Screening.L1Engine.WindowFor | backend/l1_screening.py:59 | `defaultdict` lookup: returns the target's window, creating an empty one without changing any content |
| L1Screening.L1Engine.AddToWindow | backend/l1_screening.py:64-66 | only the target's window changes, to the old one plus the event, purged |
| L1Screening.L1Engine.Record | backend/l1_screening.py:64-67 | the target's window takes the event and is purged; the event is pushed to the recent buffer; returns the window's total and count |
| L1Screening.L1Engine.Screen | backend/l1_screening.py:63-97 | the result is `Screening` over the updated window and the event; the flag count grows by one exactly when screened |
| L1Screening.L1Engine.BuildAnalysisRequest | backend/l1_screening.py:103-116 | the request carries the event, the rules, the window as related events and the window's total, count and distinct senders. An unknown user gets an empty profile |
| L1Screening.L1Engine.GetRecentEvents | backend/l1_screening.py:118-120 | the last `limit` recent events, newest first |
| L1Screening.L1Engine.GetGraphData | backend/l1_screening.py:122-140 | nodes are exactly the recent events' endpoints with their states and labels; links are one per traded pair, listed in `PairOrder` (the order each pair first appears), with summed amount and count |
| L2Gemini.ScoreToAction | backend/l2_gemini.py:44-49 | NORMAL iff score ≤ 30, UNDER_SURVEILLANCE iff 30 < score ≤ 70, BANNED iff score > 70 |
| L2Gemini.ScoreToActionMonotone | backend/l2_gemini.py:44-49 | a higher score never gives a milder action |
| L2Gemini.FallbackScore | backend/l2_gemini.py:57-69 | the fallback score lies in 0..100 |
| L2Gemini.FallbackScoreMonotone | backend/l2_gemini.py:57-69 | more rules and more senders never lower the score |
| L2Gemini.FallbackScoreZero | backend/l2_gemini.py:57-69 | the score is 0 exactly when no rule fired and fewer than 5 users sent |
| L2Gemini.ReasoningTagged | backend/l2_gemini.py:87-92 | the fallback reasoning opens with `[Local fallback: reason]` |
| L2Gemini.LocalFallback | backend/l2_gemini.py:52-95 | a valid result for the request's user and trigger event. Fraud iff score > 30; action is the score's band. Fraud type is LEGITIMATE up to 30, and above that SMURFING with ≥ 3 senders, else DIRECT with R4, else LAUNDERING. The reasoning is tagged |
| L2Gemini.FallbackQuietAccount | backend/l2_gemini.py:52-95 | no rule and one sender give score 0, not fraud, NORMAL, LEGITIMATE |
| L2Gemini.FallbackSmurfingRing | backend/l2_gemini.py:52-95 | R1 and R4 with six senders give 75, fraud, BANNED, RMT_SMURFING |
| L2Gemini.Clamp | backend/l2_gemini.py:188 | `max(0, min(100, x))`: in range, unchanged inside it, pinned to the nearer bound outside |
| L2Gemini.Normalize | backend/l2_gemini.py:173-194 | always valid. The risk is clamped (50 when absent). An unknown or absent action becomes UNDER_SURVEILLANCE, an unknown or absent fraud type LEGITIMATE. Every other field takes the reply's value or its default |
| L2Gemini.Arbitrate | backend/l2_gemini.py:129-171 | exactly `LocalFallback` with reason "GEMINI_API_KEY is not set" without a key, "API error: " plus the message on a failed call, "JSON parse failed" on non-JSON; otherwise the normalised reply |
| L2Gemini.ArbitrateFallback | backend/l2_gemini.py:129-171 | on every fallback path the verdict has the fallback score, fraud iff above 30, the score's band, the fallback fraud type, the requested user and the trigger event as evidence |
| L2Gemini.L2Engine.constructor | backend/l2_gemini.py:107-109 | no stored results |
| L2Gemini.L2Engine.StoreResult | backend/l2_gemini.py:119-121 | appends exactly that result |
| L2Gemini.L2Engine.Analyze | backend/l2_gemini.py:129-144 | returns `Arbitrate`'s verdict, and every path stores exactly that verdict once |
| L2Gemini.L2Engine.GetAnalyses | backend/l2_gemini.py:228-241 | the last `limit` stored results, newest first, all valid |
| Orchestration.CallsStateIsRun | backend/main.py:90-127 | the state after a series of transition calls is the table's run over their targets |
| Orchestration.CallsWalk | backend/main.py:90-127 | the logs of a series of calls walk by allowed edges from the start to the final state |
| Orchestration.WalkIndexed | backend/main.py:90-127 | such a walk is a log of allowed moves of that user, chained end to start |
| Orchestration.CallsLogsChained | backend/main.py:90-127 | the accepted calls form a chain of allowed edges from the start state to the final state |
| Orchestration.CallsAppend | backend/main.py:92-109 | two call series run one after the other give the concatenated logs and the composed end state |
| Orchestration.CallsSingle | backend/state_machine.py:26-49 | one call moves exactly when allowed and logs exactly then |
| Orchestration.VerdictOutcome | backend/main.py:90-127 | a BANNED verdict bans every non-NORMAL account; UNDER_SURVEILLANCE moves only RW; NORMAL recovers only US; NORMAL and BANNED accounts never change |
| Orchestration.BannedVerdictTwoSteps | backend/main.py:92-109 | a BANNED verdict on an RW account logs RW→US then US→BANNED |
| Orchestration.StatusFor | backend/main.py:130-137 | 200 iff NORMAL, 403 iff BANNED, 423 iff one of the two restricted states |
| Orchestration.WithdrawStatus | backend/main.py:130-137 | the code and message of the user's state; only the get_or_create insert changes anything |
| Orchestration.RecordBlockedWithdrawal | backend/main.py:140-142 | the counter grows by one exactly for a non-200 code; nothing else changes |
| Orchestration.Withdraw | backend/main.py:181-187 | 200 exactly for NORMAL, with every refusal counted once |
| Orchestration.ReleaseUser | backend/main.py:191-204 | 400 unless RW or US; US is released to NORMAL with a MANUAL_RELEASE log and code 200; RW is refused by the table, code 500 |
| Orchestration.PerformCall | backend/main.py:90-127 | one transition call extends the state and log along the call series |
| Orchestration.BannedCalls | backend/main.py:92-109 | the BANNED branch's calls are the verdict's call series |
| Orchestration.Lookup | backend/main.py:101 | the re-read between the two BANNED steps returns the stored state and changes nothing |
| Orchestration.ApplyBanned | backend/main.py:92-109 | the BANNED branch leaves the state and log that its call series gives |
| Orchestration.ApplyL2Verdict | backend/main.py:90-127 | the state becomes the end of the verdict's calls, and exactly the accepted calls are logged |
| Orchestration.Register | backend/main.py:53-54 | both parties are registered, the actor first, and their states are unchanged |
| Orchestration.L1Step | backend/main.py:58-67 | a screened event moves a NORMAL target to RW with one L1 log naming the rules; otherwise nothing changes |
| Orchestration.ShouldScheduleL2 | backend/main.py:69-72 | L2 is scheduled iff enabled and the event needs L2 or was screened on a target that is no longer NORMAL |
| Orchestration.RegisterAndScreen | backend/main.py:53-56 | registers both parties, then screens; screened iff an action is recommended, and needing L2 implies screened |
| Orchestration.ScreenEvent | backend/main.py:53-67 | registration, screening and the L1 move together; a screened target is never left NORMAL |
| Orchestration.ProcessEvent | backend/main.py:47-79 | the whole L1 pipeline. An analysis request is built exactly when L2 is enabled and the event was screened, and it is the request over the target's window and current state |
| Orchestration.RunL2 | backend/main.py:82-87 | the verdict is `Arbitrate`'s, it is stored once, and it is applied to its target as `ApplyL2Verdict` says; an unseen target is appended to the account order and a known one keeps its place |
| IncidentTimeline.StateRank | frontend/src/components/incidentTimelineModel.ts:21-26 | the rank lies in 0..3 |
| IncidentTimeline.StateRankIsSeverity | frontend/src/components/incidentTimelineModel.ts:21-26 | the rank of each backend state is its severity: NORMAL 0, RW 1, US 2, BANNED 3 |
| IncidentTimeline.SlangFromBackend | frontend/src/components/incidentTimelineModel.ts:3 | any slang the frontend pattern finds, the backend pattern finds too |
| IncidentTimeline.SlangBackendOnly | frontend/src/components/incidentTimelineModel.ts:3 | `りょ。` is slang to the backend but not to the frontend |
| IncidentTimeline.SuspiciousChatTriggersR4 | frontend/src/components/incidentTimelineModel.ts:28-31 | a chat the timeline calls suspicious always triggers the backend's R4 |
| IncidentTimeline.UsersByIdDomain | frontend/src/components/incidentTimelineModel.ts:39 | an id is a key of `usersById` exactly when some user row has it |
| IncidentTimeline.UsersByIdLast | frontend/src/components/incidentTimelineModel.ts:39 | each id maps to its last row |
| IncidentTimeline.AddAllSingle | frontend/src/components/incidentTimelineModel.ts:52-61 | adding one id to a Set appends it only when it is absent |
| IncidentTimeline.AddAllMembers | frontend/src/components/incidentTimelineModel.ts:52-61 | after the adds, the Set holds exactly the old members and the added ids |
| IncidentTimeline.AddAllDistinct | frontend/src/components/incidentTimelineModel.ts:52-61 | a Set stays duplicate-free |
| IncidentTimeline.FirstByTargetDomain | frontend/src/components/incidentTimelineModel.ts:41-46 | a target has a latest analysis exactly when some analysis names it |
| IncidentTimeline.FirstByTargetFirst | frontend/src/components/incidentTimelineModel.ts:41-46 | the kept analysis is the first one per target |
| IncidentTimeline.SuspiciousTargetsMembers | frontend/src/components/incidentTimelineModel.ts:48-50 | a target is suspicious exactly when a suspicious event is addressed to it |
| IncidentTimeline.FlaggedUsersMembers | frontend/src/components/incidentTimelineModel.ts:53-55 | exactly the users with a row outside NORMAL |
| IncidentTimeline.CandidatesExactly | frontend/src/components/incidentTimelineModel.ts:52-61 | a candidate is exactly a user shown outside NORMAL, an analysed target, or a suspicious-event target, each listed once |
| IncidentTimeline.AnalysedIdsMembers | frontend/src/components/incidentTimelineModel.ts:56-58 | the analysed ids are exactly the targets of analyses, the keys of the latest-analysis map |
| IncidentTimeline.CandidatesDistinct | frontend/src/components/incidentTimelineModel.ts:52-61 | no candidate is listed twice |
| IncidentTimeline.Items | frontend/src/components/incidentTimelineModel.ts:63-90 | one item per candidate |
| IncidentTimeline.BeforeAsymmetric | frontend/src/components/incidentTimelineModel.ts:92-100 | the comparator never puts two items each before the other |
| IncidentTimeline.BeforeTotal | frontend/src/components/incidentTimelineModel.ts:92-100 | items with different ids are always ordered one way or the other |
| IncidentTimeline.NotAfterTransitive | frontend/src/components/incidentTimelineModel.ts:92-100 | "not after" is transitive, so the comparator is a consistent order |
| IncidentTimeline.Insert | frontend/src/components/incidentTimelineModel.ts:92-100 | inserting into the sorted list adds one item |
| IncidentTimeline.SortItems | frontend/src/components/incidentTimelineModel.ts:92-100 | sorting keeps the length |
| IncidentTimeline.InsertPermutation | frontend/src/components/incidentTimelineModel.ts:92-100 | insertion adds exactly the item to the multiset |
| IncidentTimeline.InsertSorted | frontend/src/components/incidentTimelineModel.ts:92-100 | insertion keeps the list sorted |
| IncidentTimeline.InsertDistinct | frontend/src/components/incidentTimelineModel.ts:92-100 | inserting a new id keeps ids distinct |
| IncidentTimeline.InsertMembers | frontend/src/components/incidentTimelineModel.ts:92-100 | the members after insertion are the item and the old ones |
| IncidentTimeline.SortItemsOrdered | frontend/src/components/incidentTimelineModel.ts:92-100 | the sorted list is in comparator order |
| IncidentTimeline.SortItemsPermutation | frontend/src/components/incidentTimelineModel.ts:92-100 | the sorted list is a permutation of the input |
| IncidentTimeline.SortItemsDistinct | frontend/src/components/incidentTimelineModel.ts:92-100 | sorting keeps ids distinct |
| IncidentTimeline.SortItemsSorted | frontend/src/components/incidentTimelineModel.ts:92-100 | the sort is ordered, a permutation, and keeps ids distinct |
| IncidentTimeline.LatestAnalyses | frontend/src/components/incidentTimelineModel.ts:41-46 | the loop builds the first analysis per target, keys in first-seen order |
| IncidentTimeline.AddEach | frontend/src/components/incidentTimelineModel.ts:56-61 | the add loop gives the Set after all adds |
| IncidentTimeline.CandidateIds | frontend/src/components/incidentTimelineModel.ts:52-61 | the three loops give flagged users, then analysed ids, then suspicious targets |
| IncidentTimeline.BuildIncidentTimeline | frontend/src/components/incidentTimelineModel.ts:33-103 | the method computes the timeline the functions define |
| IncidentTimeline.SortedStrict | frontend/src/components/incidentTimelineModel.ts:92-100 | a sorted duplicate-free list is strictly ordered |
| IncidentTimeline.ItemsDistinct | frontend/src/components/incidentTimelineModel.ts:63-90 | distinct candidates give items with distinct ids |
| IncidentTimeline.SortedPrefix | frontend/src/components/incidentTimelineModel.ts:92-102 | any prefix of the sorted items is strictly ordered, made of input items, and comes before every item left out |
| IncidentTimeline.TimelineOrder | frontend/src/components/incidentTimelineModel.ts:92-102 | min(candidates, max(0, limit)) items, distinct ids, strictly ordered by state rank, then risk, then id |
| IncidentTimeline.TimelineItems | frontend/src/components/incidentTimelineModel.ts:63-102 | each item shown is a candidate's own item |
| IncidentTimeline.TimelineCoverage | frontend/src/components/incidentTimelineModel.ts:52-102 | every candidate is shown or ranks after all shown items; with a large limit every candidate is shown |
| IncidentTimeline.ItemMeaning | frontend/src/components/incidentTimelineModel.ts:63-90 | four steps keyed l1, withdraw, l2, final. L1 is done iff a suspicious event targets the user, L2 done iff an analysis does (with its risk). The state is the last row's; withdraw and final are done iff it is not NORMAL |
| IncidentTimeline.ExampleBannedLookups | frontend/src/components/incidentTimelineModel.test.ts:42-58 | the lookups of the banned-account case hold only that account |
| IncidentTimeline.ExampleBannedItem | frontend/src/components/incidentTimelineModel.test.ts:52-57 | the banned account's four steps are all done, with `risk 95` as the L2 detail |
| IncidentTimeline.SingleTimeline | frontend/src/components/incidentTimelineModel.ts:92-102 | a single candidate with a positive limit gives exactly its item |
| IncidentTimeline.ExampleBannedAccount | frontend/src/components/incidentTimelineModel.test.ts:42-58 | the banned account is the only item, BANNED, with all four steps done |
| IncidentTimeline.ExampleAnalysedOnly | frontend/src/components/incidentTimelineModel.test.ts:60-70 | an account known only from an analysis appears once, in the analysis's recommended state |
| GraphCinematic.EscalatedExactly | frontend/src/components/graphCinematic.ts:1-12 | exactly the three restricted state names are escalated; NORMAL, absent and empty are not |
| GraphCinematic.EscalatedIsRanked | frontend/src/components/graphCinematic.ts:10-12 | escalated states are exactly those the timeline ranks above NORMAL |
| GraphCinematic.EscalatedBackendStates | frontend/src/components/graphCinematic.ts:10-12 | of the backend's states, every one but NORMAL is escalated |
| GraphCinematic.HighlightMeaning | frontend/src/components/graphCinematic.ts:14-21 | a highlight needs two known, different states and a ranked new one, so BANNED→US is highlighted too |
| GraphCinematic.BackendMovesHighlighted | frontend/src/components/graphCinematic.ts:14-28 | an allowed backend move is highlighted iff it leaves NORMAL behind and glows iff it enters BANNED |
| GraphCinematic.GlowAndHighlight | frontend/src/components/graphCinematic.ts:14-28 | with a known previous state the glow comes with a highlight; without one it comes alone |
| GraphCinematic.SuspiciousLinkMonotone | frontend/src/components/graphCinematic.ts:30-32 | raising a link's amount or count never clears its suspicious mark |
| GraphCinematic.SuspiciousLinkExamples | frontend/src/components/graphCinematic.test.ts:31-35 | the thresholds at their edges: 500,000 or 3 suffices, 499,999 with 2 does not |
| GraphCinematic.HighlightAndGlowExamples | frontend/src/components/graphCinematic.test.ts:18-29 | the highlight and glow cases of the component's tests |
| NetworkGraph.RecordedDomain | frontend/src/components/NetworkGraph.tsx:26-32 | an id is recorded after a snapshot exactly when it was before or a node carries it; a `__proto__` node adds nothing, since that assignment is ignored |
| NetworkGraph.RecordedLast | frontend/src/components/NetworkGraph.tsx:31 | an id other than `__proto__` ends with the state of its last node |
| NetworkGraph.RecordedUntouched | frontend/src/components/NetworkGraph.tsx:31 | an id that no node carries, and `__proto__` always, keeps its old entry or its absence |
| NetworkGraph.ChangedInSnapshot | frontend/src/components/NetworkGraph.tsx:26-30 | only ids in the snapshot are marked |
| NetworkGraph.ChangedExactly | frontend/src/components/NetworkGraph.tsx:21-32 | with one node per id, an id is marked exactly when what `prevStates[id]` read before the snapshot is truthy and differs: an own non-empty different text, or an inherited `Object.prototype` member |
| NetworkGraph.FirstSighting | frontend/src/components/NetworkGraph.tsx:21-32 | a node whose id `prevStates` does not own is marked iff the id names an `Object.prototype` member (`constructor`, `toString`, `__proto__`, ...); an ordinary first sighting is never marked |
| NetworkGraph.SameSnapshotTwice | frontend/src/components/NetworkGraph.tsx:23-37 | the same snapshot given twice marks nothing the second time, except a `__proto__` node, which is marked again because its write was ignored |
| NetworkGraph.ChangeTracker.constructor | frontend/src/components/NetworkGraph.tsx:20-21 | no recorded states and no marked nodes |
| NetworkGraph.ChangeTracker.OnData | frontend/src/components/NetworkGraph.tsx:21-37 | a null snapshot changes nothing. Otherwise every node's state is recorded (a `__proto__` write is ignored), the ids marked under the plain-object lookup are `Changed`, and they replace the published set only when there are some |

## Left out

- **Storage and scheduling.** Redis storage, the persistence layer, the lock manager, the worker process and `asyncio` are not modelled. The background L2 task is modelled by returning the request it would run (`Orchestration.ProcessEvent`), and `Orchestration.RunL2` runs it to completion in one step, so interleavings are not modelled.
- **The LLM call.** The Gemini call, its prompt (`SYSTEM_PROMPT`, `_build_prompt`) and the JSON decoding are not modelled. `L2Gemini.Arbitrate` takes the call's outcome as a parameter, and a reply field of the wrong type is not modelled.
- **Parts outside the core.** HTTP routing, authentication, the mock server, the UI components' rendering and the other frontend files are not part of this model. A raised `HTTPException` is its status code.
- **Timestamps.**
  - Timestamp strings are whole seconds, with `None` for an unparsable one.
  - The wall clock is an explicit `now` parameter.
  - The log entries' own timestamps are dropped.
- **Confidence.** The float `confidence` of a verdict is dropped.
- **Iteration order.** `L1Screening.L1Engine.GetGraphData` returns its nodes as a set; the iteration order of the Python `set` is not modelled.
- **Link width.** The link width of the graph component (a logarithm) is not modelled.
- **Reset.** The `reset` methods the tests call on the engines are not part of the code modelled.
- **Re-reads.** The `get_or_create` calls that `backend/main.py` makes after both parties are registered only read the stored state. They are modelled as plain reads (`Orchestration.ShouldScheduleL2`, `Orchestration.ProcessEvent`).
- **String details.**
  - `localeCompare` is modelled as code-point order (`Base.StrLess`), since locale collation has no definition here.
  - The regular expressions are written out at character level, not as a general regex engine.
  - `PyListRepr` renders names as `['R1', 'R4']`, which matches Python's `str` of a list of plain rule names.
- **Clear timer.** `NetworkGraph.ChangeTracker.OnData` does not model the three-second timer that clears the published set.
- **Stored reasoning.** `L2Gemini.LocalFallback` does not state the full reasoning text. It states only that the text opens with the fallback tag; the rest is defined by `FallbackSummary`.
