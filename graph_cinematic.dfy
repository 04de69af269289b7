/**
 * The network graph's visual-effect predicates (frontend/src/components/graphCinematic.ts):
 * which states count as escalated, when a node's state change is highlighted,
 * when the BANNED glow fires, and which links are drawn as suspicious.
 * States arrive as optional strings; JavaScript treats an absent or empty
 * string as false.
 */
module GraphCinematic {
  import opened Base
  import opened Models
  import Accounts
  import IncidentTimeline

  const SuspiciousLinkAmount := 500_000
  const SuspiciousLinkCount := 3

  /** JavaScript truthiness of a `string | undefined`. */
  predicate Truthy(s: Option<string>) {
    s.Some? && s.value != ""
  }

  /** `isEscalatedState`: membership in the set of the three restricted states. */
  predicate IsEscalatedState(state: Option<string>) {
    Truthy(state) && state.value in {"RESTRICTED_WITHDRAWAL", "UNDER_SURVEILLANCE", "BANNED"}
  }

  /** `shouldHighlightTransition`. */
  predicate ShouldHighlightTransition(prev: Option<string>, next: Option<string>) {
    if !Truthy(prev) || !Truthy(next) then false
    else if prev == next then false
    else IsEscalatedState(next)
  }

  /** `shouldGlowBanned`: an absent previous state also counts as "not BANNED". */
  predicate ShouldGlowBanned(prev: Option<string>, next: Option<string>) {
    prev != Some("BANNED") && next == Some("BANNED")
  }

  /** `isSuspiciousLink`. */
  predicate IsSuspiciousLink(link: GraphLink) {
    link.amount >= SuspiciousLinkAmount || link.count >= SuspiciousLinkCount
  }

  /** Exactly the three restricted state names are escalated; NORMAL, an absent state and unknown text are not. */
  lemma EscalatedExactly(state: Option<string>)
    ensures IsEscalatedState(state) <==>
      state == Some("RESTRICTED_WITHDRAWAL") || state == Some("UNDER_SURVEILLANCE") || state == Some("BANNED")
    ensures !IsEscalatedState(Some("NORMAL")) && !IsEscalatedState(None) && !IsEscalatedState(Some(""))
  {
  }

  /** Escalated states are exactly those the incident timeline ranks above NORMAL. */
  lemma EscalatedIsRanked(state: Option<string>)
    ensures IsEscalatedState(state) <==> state.Some? && IncidentTimeline.StateRank(state.value) > 0
  {
  }

  /** Among the backend's states, every state but NORMAL is escalated. */
  lemma EscalatedBackendStates(s: AccountState)
    ensures IsEscalatedState(Some(StateName(s))) <==> s != Normal
  {
  }

  /**
   * A highlight needs two known, different states and an escalated new one;
   * the direction of the change does not matter, so BANNED to
   * UNDER_SURVEILLANCE is highlighted too.
   */
  lemma HighlightMeaning(prev: Option<string>, next: Option<string>)
    ensures ShouldHighlightTransition(prev, next) <==>
      Truthy(prev) && next.Some? && prev.value != next.value && IncidentTimeline.StateRank(next.value) > 0
    ensures ShouldHighlightTransition(Some("BANNED"), Some("UNDER_SURVEILLANCE"))
  {
    EscalatedIsRanked(next);
  }

  /**
   * Every move the backend's transition table allows into a restricted state
   * is highlighted, and the glow fires exactly for the moves into BANNED.
   */
  lemma BackendMovesHighlighted(from: AccountState, to: AccountState)
    requires Accounts.CanMove(from, to)
    ensures ShouldHighlightTransition(Some(StateName(from)), Some(StateName(to))) <==> to != Normal
    ensures ShouldGlowBanned(Some(StateName(from)), Some(StateName(to))) <==> to == Banned
  {
    Accounts.AllowedEdges(from, to);
  }

  /** With a known previous state, the glow comes with a highlight; without one, it comes alone. */
  lemma GlowAndHighlight(prev: Option<string>, next: Option<string>)
    ensures ShouldGlowBanned(prev, next) && Truthy(prev) ==> ShouldHighlightTransition(prev, next)
    ensures ShouldGlowBanned(None, Some("BANNED")) && !ShouldHighlightTransition(None, Some("BANNED"))
  {
  }

  /** Raising a link's amount or count never clears its suspicious mark. */
  lemma SuspiciousLinkMonotone(a: GraphLink, b: GraphLink)
    requires a.amount <= b.amount && a.count <= b.count
    ensures IsSuspiciousLink(a) ==> IsSuspiciousLink(b)
  {
  }

  /** The thresholds at their edges. */
  lemma SuspiciousLinkExamples(s: string, t: string)
    ensures IsSuspiciousLink(GraphLink(s, t, 500_000, 1))
    ensures IsSuspiciousLink(GraphLink(s, t, 100_000, 3))
    ensures !IsSuspiciousLink(GraphLink(s, t, 100_000, 1))
    ensures !IsSuspiciousLink(GraphLink(s, t, 499_999, 2))
  {
  }

  /** The highlight and glow cases of the component's tests. */
  lemma HighlightAndGlowExamples()
    ensures ShouldHighlightTransition(Some("NORMAL"), Some("RESTRICTED_WITHDRAWAL"))
    ensures ShouldHighlightTransition(Some("UNDER_SURVEILLANCE"), Some("BANNED"))
    ensures !ShouldHighlightTransition(Some("NORMAL"), Some("NORMAL"))
    ensures !ShouldHighlightTransition(None, Some("BANNED"))
    ensures ShouldGlowBanned(Some("UNDER_SURVEILLANCE"), Some("BANNED"))
    ensures !ShouldGlowBanned(Some("BANNED"), Some("BANNED"))
    ensures !ShouldGlowBanned(Some("NORMAL"), Some("UNDER_SURVEILLANCE"))
  {
  }
}
