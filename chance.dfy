/**
 * The random draws the engine makes, as explicit oracle values, and the interaction rules
 * that depend on them: `decide`, the cooperation bits and outcomes of `play`, and the deceit
 * and noise gates of `update_affect`.
 *
 * A `Unit` is a value of `random.random()`; `random.uniform(lo, hi)` is `lo + (hi - lo) * u`
 * of such a value. Every method is given all the draws it may make; draws the source would
 * not make on a path are ignored there.
 */
module Chance {
  import opened Game
  import opened Params
  import opened Genome

  type Unit = u: real | 0.0 <= u < 1.0

  /** The deceiver's `decide("deceit")` draw and the perceptual-noise draw of `update_affect`. */
  datatype AffectDraws = AffectDraws(deceit: Unit, percept: Unit)

  /** The two `decide("cooper")` draws and the two action-noise draws of `play`. */
  datatype PlayDraws = PlayDraws(coopA: Unit, coopB: Unit, flipA: Unit, flipB: Unit)

  /** The draws of `update_relationship`: those of its `update_affect` and of `decide("attach")`. */
  datatype RelationshipDraws = RelationshipDraws(affect: AffectDraws, attach: Unit)

  /** The draws of `interact`: its `play`, then `b`'s and `a`'s `update_relationship`. */
  datatype InteractDraws = InteractDraws(play: PlayDraws, relB: RelationshipDraws, relA: RelationshipDraws)

  /** The draws of `play_pretend`: its `play`, `b`'s and `a`'s `update_affect`, then the two
      `decide("attach")`. */
  datatype PretendDraws = PretendDraws(
    play: PlayDraws, affectB: AffectDraws, affectA: AffectDraws, attachA: Unit, attachB: Unit)

  /** The draws of one test of the courtship loop, `decide("play")` of `a` and of `b`, and of the
      `play_pretend` round it may run. */
  datatype CourtDraws = CourtDraws(playA: Unit, playB: Unit, pretend: PretendDraws)

  /** The draws of one `pair_interact`: the two `random.choice` indices, the courtship rounds
      by round number, and the `interact`. */
  datatype StepDraws = StepDraws(pickA: nat, pickB: nat, court: nat -> CourtDraws, interact: InteractDraws)

  /** The draws of one death: the `random.choice` index of the victim and its `birth`. */
  datatype DeathDraws = DeathDraws(victim: nat, genes: GeneDraws)

  /** The draws of one iteration of `run`: the pairing steps by step number, the
      `random.choices` draws by parent number, and the deaths by parent number. */
  datatype IterationDraws = IterationDraws(steps: nat -> StepDraws, parents: nat -> Unit, deaths: nat -> DeathDraws)

  /** `decide`: piece-wise, `uniform(-0.5, 0.5) < phenotype`; smooth, `uniform(0, 1) < _sigmoid`;
      any other setting makes the source return `None`, which is false. */
  function Decide(cfg: Config, phen: real, u: Unit): (r: bool)
    ensures cfg.sigmoid == PieceWise && phen >= 0.5 ==> r
    ensures cfg.sigmoid == PieceWise && phen <= -0.5 ==> !r
    ensures cfg.sigmoid.OtherSigmoid? ==> !r
  {
    if cfg.sigmoid == PieceWise then -0.5 + u < phen
    else if cfg.sigmoid == Smooth then u < cfg.logistic(phen)
    else false
  }

  /** The piece-wise gate is certain from 0.5 up, impossible from -0.5 down, and monotone. */
  lemma PieceWiseGate(cfg: Config, phen: real, phen': real, u: Unit)
    requires cfg.sigmoid == PieceWise
    ensures phen >= 0.5 ==> Decide(cfg, phen, u)
    ensures phen <= -0.5 ==> !Decide(cfg, phen, u)
    ensures Decide(cfg, phen, u) && phen <= phen' ==> Decide(cfg, phen', u)
  {
  }

  /** Whether this draw of action noise flips a cooperation bit in `play`. */
  predicate ActionNoise(cfg: Config, u: Unit) {
    cfg.noiseType == Action && u < cfg.noise
  }

  /** Whether this draw of perceptual noise remaps the outcome in `update_affect`. */
  predicate PerceptNoise(cfg: Config, u: Unit) {
    cfg.noiseType == Percept && u < cfg.noise
  }

  /** A cooperation bit of `play`: `decide("cooper")`, flipped by action noise. */
  function Cooperates(cfg: Config, cooper: real, decideU: Unit, flipU: Unit): (c: bool)
    ensures c != Decide(cfg, cooper, decideU) <==> ActionNoise(cfg, flipU)
  {
    var c := Decide(cfg, cooper, decideU);
    if ActionNoise(cfg, flipU) then !c else c
  }

  /** `play`: the outcomes of `a` and `b` (given their `cooper` phenotypes). */
  function PlayOutcomes(cfg: Config, cooperA: real, cooperB: real, d: PlayDraws): (r: (Outcome, Outcome))
    ensures CheckCooperated(r.0) == Cooperates(cfg, cooperA, d.coopA, d.flipA)
    ensures CheckCooperated(r.1) == Cooperates(cfg, cooperB, d.coopB, d.flipB)
    ensures PartnerCooperated(r.0) == CheckCooperated(r.1) && PartnerCooperated(r.1) == CheckCooperated(r.0)
  {
    Outcomes(Cooperates(cfg, cooperA, d.coopA, d.flipA), Cooperates(cfg, cooperB, d.coopB, d.flipB))
  }

  /** The draws of `play` with the two players' roles exchanged. */
  function SwapPlay(d: PlayDraws): PlayDraws {
    PlayDraws(d.coopB, d.coopA, d.flipB, d.flipA)
  }

  /** Swapping the two agents (and their draws) swaps the outcome pair. */
  lemma PlaySwap(cfg: Config, cooperA: real, cooperB: real, d: PlayDraws)
    ensures PlayOutcomes(cfg, cooperB, cooperA, SwapPlay(d))
            == (PlayOutcomes(cfg, cooperA, cooperB, d).1, PlayOutcomes(cfg, cooperA, cooperB, d).0)
  {
    OutcomesSwap(Cooperates(cfg, cooperA, d.coopA, d.flipA), Cooperates(cfg, cooperB, d.coopB, d.flipB));
  }

  /** Without action noise the outcome pair is the table entry of the two decisions. */
  lemma PlayWithoutNoise(cfg: Config, cooperA: real, cooperB: real, d: PlayDraws)
    requires cfg.noiseType != Action
    ensures PlayOutcomes(cfg, cooperA, cooperB, d)
            == Outcomes(Decide(cfg, cooperA, d.coopA), Decide(cfg, cooperB, d.coopB))
  {
  }

  /** The deceit gate of `update_affect`: deceit is allowed, the outcome is S or P, and the
      other agent's `decide("deceit")` is true. */
  function Deceived(cfg: Config, result: Outcome, deceit: real, u: Unit): (r: bool)
    ensures r ==> cfg.allowDeceit && !PartnerCooperated(result)
    ensures r <== cfg.allowDeceit && !PartnerCooperated(result) && Decide(cfg, deceit, u)
  {
    cfg.allowDeceit && (result == S || result == P) && Decide(cfg, deceit, u)
  }

  /** The outcome `update_affect` responds to: deceit remap first, then perceptual noise. The
      agent always perceives its own action correctly; it perceives its partner as a
      cooperator exactly when one of deceit and noise (not both) says so. */
  function Perceived(cfg: Config, result: Outcome, deceived: bool, u: Unit): (r: Outcome)
    ensures CheckCooperated(r) == CheckCooperated(result)
    ensures PartnerCooperated(r)
            == ((deceived || PartnerCooperated(result)) != PerceptNoise(cfg, u))
  {
    var r := if deceived then DeceitRemap(result) else result;
    if PerceptNoise(cfg, u) then PerceptRemap(r) else r
  }

  /** Without deceit and noise the agent responds to the outcome it got; deceit alone turns
      S into R and P into T. */
  lemma PerceivedCases(cfg: Config, result: Outcome, deceived: bool, u: Unit)
    requires !PerceptNoise(cfg, u)
    ensures !deceived ==> Perceived(cfg, result, deceived, u) == result
    ensures deceived && result == S ==> Perceived(cfg, result, deceived, u) == R
    ensures deceived && result == P ==> Perceived(cfg, result, deceived, u) == T
  {
  }
}
