/**
 * The one-shot Prisoner's Dilemma as the simulation sees it: the four outcomes of a round,
 * seen from one player, the outcome table of `play`, `check_cooperated`, and the two
 * outcome remaps applied by `update_affect` (deceit interception and perceptual noise).
 */
module Game {

  /** R reward (both cooperated), T temptation (I defected, my partner cooperated),
      P punishment (both defected), S sucker (I cooperated, my partner defected). */
  datatype Outcome = R | T | P | S

  /** `check_cooperated`: the player whose outcome this is cooperated. */
  predicate CheckCooperated(o: Outcome) {
    o == R || o == S
  }

  /** The other player of the round cooperated. */
  predicate PartnerCooperated(o: Outcome) {
    o == R || o == T
  }

  /** The outcome table of `play`: the outcomes of `a` and `b` from their cooperation bits.
      Each player's outcome records its own action and its partner's action. */
  function Outcomes(aCoop: bool, bCoop: bool): (r: (Outcome, Outcome))
    ensures CheckCooperated(r.0) == aCoop && PartnerCooperated(r.0) == bCoop
    ensures CheckCooperated(r.1) == bCoop && PartnerCooperated(r.1) == aCoop
  {
    if aCoop && bCoop then (R, R)
    else if aCoop then (S, T)
    else if bCoop then (T, S)
    else (P, P)
  }

  /** An outcome is determined by the two actions it records. */
  lemma OutcomeDetermined(o1: Outcome, o2: Outcome)
    requires CheckCooperated(o1) == CheckCooperated(o2)
    requires PartnerCooperated(o1) == PartnerCooperated(o2)
    ensures o1 == o2
  {
  }

  /** The four rows of the table, each in both directions. */
  lemma OutcomesTable(aCoop: bool, bCoop: bool)
    ensures Outcomes(aCoop, bCoop) == (R, R) <==> aCoop && bCoop
    ensures Outcomes(aCoop, bCoop) == (S, T) <==> aCoop && !bCoop
    ensures Outcomes(aCoop, bCoop) == (T, S) <==> !aCoop && bCoop
    ensures Outcomes(aCoop, bCoop) == (P, P) <==> !aCoop && !bCoop
  {
  }

  /** Swapping the two players swaps the outcome pair. */
  lemma OutcomesSwap(aCoop: bool, bCoop: bool)
    ensures Outcomes(bCoop, aCoop) == (Outcomes(aCoop, bCoop).1, Outcomes(aCoop, bCoop).0)
  {
  }

  /** Deceit interception: the deceived player sees S as R and P as T, that is, it keeps
      its own action and believes its partner cooperated. R and T are left alone. */
  function DeceitRemap(o: Outcome): (r: Outcome)
    ensures CheckCooperated(r) == CheckCooperated(o)
    ensures PartnerCooperated(r)
    ensures PartnerCooperated(o) ==> r == o
  {
    match o
    case S => R
    case P => T
    case _ => o
  }

  /** Perceptual noise: R and S trade places, and so do T and P; the player keeps its own
      action and misreads its partner's. */
  function PerceptRemap(o: Outcome): (r: Outcome)
    ensures CheckCooperated(r) == CheckCooperated(o)
    ensures PartnerCooperated(r) == !PartnerCooperated(o)
  {
    match o
    case R => S
    case T => P
    case P => T
    case S => R
  }

  /** Perceptual noise applied twice gives back the outcome. */
  lemma PerceptInvolution(o: Outcome)
    ensures PerceptRemap(PerceptRemap(o)) == o
  {
  }
}
