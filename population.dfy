/**
 * The agents of a run as values: an agent's stored state (genotype, phenotype, payoff,
 * partner) and what each `Agent` method and each round of play does to the population, an
 * agent being its position in the population and a partner reference the partner's position.
 * The arena's methods are proved to compute exactly these functions.
 */
module Population {
  import opened Wrappers
  import opened Game
  import opened Params
  import opened Genome
  import opened Chance

  /** `Agent`: `geno`, `phen`, `payoff` and `partner`. */
  datatype Agent = Agent(geno: Genotype, phen: Phenotype, payoff: real, partner: Option<nat>)

  /** An agent whose genotype lies within the genotype bounds. */
  ghost predicate Sound(a: Agent) {
    Bounded(a.geno, MinGeno, MaxGeno)
  }

  ghost predicate AllSound(pop: seq<Agent>) {
    forall i | 0 <= i < |pop| :: Sound(pop[i])
  }

  /** The phenotype value of a trait. */
  function Phen(a: Agent, t: Trait): real {
    Value(a.phen, t)
  }

  /** Every partner reference names an agent of the population. */
  predicate Linked(pop: seq<Agent>) {
    forall i | 0 <= i < |pop| && pop[i].partner.Some? :: pop[i].partner.value < |pop|
  }

  /** The partner relation is symmetric and irreflexive: `a.partner == b` exactly when
      `b.partner == a`, and no agent is its own partner. */
  predicate Symmetric(pop: seq<Agent>) {
    forall i | 0 <= i < |pop| && pop[i].partner.Some? ::
      pop[i].partner.value < |pop| && pop[i].partner.value != i
      && pop[pop[i].partner.value].partner == Some(i)
  }

  /** `a` and `b` are each other's partners. */
  predicate Paired(pop: seq<Agent>, a: nat, b: nat)
    requires a < |pop| && b < |pop|
  {
    pop[a].partner == Some(b) && pop[b].partner == Some(a)
  }

  /** Neither `a` nor `b` has a partner. */
  predicate Single(pop: seq<Agent>, a: nat, b: nat)
    requires a < |pop| && b < |pop|
  {
    pop[a].partner.None? && pop[b].partner.None?
  }

  /** `a` and `b` are a couple or both single. */
  predicate Couple(pop: seq<Agent>, a: nat, b: nat)
    requires a < |pop| && b < |pop|
  {
    Paired(pop, a, b) || Single(pop, a, b)
  }

  /** Only agents `a` and `b` differ between the two populations. */
  predicate Outside(pop: seq<Agent>, pop': seq<Agent>, a: nat, b: nat) {
    |pop'| == |pop| && forall x | 0 <= x < |pop| && x != a && x != b :: pop'[x] == pop[x]
  }

  /** A round that only changes a couple or two single agents, and leaves them a couple or
      both single, keeps the partner relation symmetric. */
  lemma CoupleKeepsSymmetry(pop: seq<Agent>, pop': seq<Agent>, a: nat, b: nat)
    requires a < |pop| && b < |pop| && a != b
    requires Symmetric(pop) && Couple(pop, a, b)
    requires Outside(pop, pop', a, b) && Couple(pop', a, b)
    ensures Symmetric(pop')
  {
    forall i | 0 <= i < |pop'| && pop'[i].partner.Some?
      ensures pop'[i].partner.value < |pop'| && pop'[i].partner.value != i
      ensures pop'[pop'[i].partner.value].partner == Some(i)
    {
      if i != a && i != b {
        var j := pop[i].partner.value;
        assert pop[j].partner == Some(i);
        assert j != a && j != b;
      }
    }
  }

  /** `end_relationship`: no partner, and every trait of the phenotype back at its BASE. */
  function Ended(a: Agent): (r: Agent)
    ensures r.partner.None? && r.geno == a.geno && r.payoff == a.payoff
    ensures forall t :: Phen(r, t) == Gene(a.geno, t, Base)
  {
    a.(partner := None, phen := BasePhen(a.geno))
  }

  /** The agent `birth` makes: its genotype bred from `parent` (or drawn when there is none),
      the phenotype at BASE, no payoff and no partner. */
  function Newborn(cfg: Config, parent: Option<Genotype>, d: GeneDraws): (a: Agent)
    ensures Sound(a) && a.payoff == 0.0 && a.partner.None?
    ensures forall t, p :: Gene(a.geno, t, p) == Bred(cfg, parent, d, t, p)
    ensures forall t :: Phen(a, t) == Gene(a.geno, t, Base)
  {
    var g := Offspring(cfg, parent, d);
    Agent(g, BasePhen(g), 0.0, None)
  }

  /** The genotype `birth` copies: that of the parent agent, if any. */
  function ParentGeno(pop: seq<Agent>, parent: Option<nat>): Option<Genotype>
    requires parent.Some? ==> parent.value < |pop|
  {
    if parent.Some? then Some(pop[parent.value].geno) else None
  }

  /** `birth` of agent `i`: it becomes a newborn, and its former partner, if it had one,
      ends the relationship. */
  function Reborn(cfg: Config, pop: seq<Agent>, i: nat, parent: Option<nat>, d: GeneDraws): (pop': seq<Agent>)
    requires i < |pop| && Linked(pop)
    requires parent.Some? ==> parent.value < |pop|
  {
    Replaced(pop, i, Newborn(cfg, ParentGeno(pop, parent), d))
  }

  /** Agent `i` takes the state `a`, and its former partner, if it had one, ends the
      relationship. */
  function Replaced(pop: seq<Agent>, i: nat, a: Agent): (pop': seq<Agent>)
    requires i < |pop| && Linked(pop)
    ensures |pop'| == |pop|
  {
    var q := pop[i := a];
    if pop[i].partner.Some? then
      var j := pop[i].partner.value;
      q[j := Ended(q[j])]
    else q
  }

  /** Replacing an agent by a sound agent without a partner: the former partner has no
      partner either and is back at BASE; no one else changes; every agent stays sound and the
      partner relation stays symmetric. */
  lemma ReplacedFacts(pop: seq<Agent>, i: nat, a: Agent)
    requires i < |pop| && AllSound(pop) && Symmetric(pop)
    requires Sound(a) && a.partner.None?
    ensures var pop' := Replaced(pop, i, a);
            && AllSound(pop') && Symmetric(pop') && pop'[i] == a
            && (pop[i].partner.Some? ==> pop'[pop[i].partner.value] == Ended(pop[pop[i].partner.value]))
            && forall x | 0 <= x < |pop| && x != i && Some(x) != pop[i].partner :: pop'[x] == pop[x]
  {
    var pop' := Replaced(pop, i, a);
    forall x | 0 <= x < |pop'| && pop'[x].partner.Some?
      ensures pop'[x].partner.value < |pop'| && pop'[x].partner.value != x
      ensures pop'[pop'[x].partner.value].partner == Some(x)
    {
      var j := pop[x].partner.value;
      assert pop[j].partner == Some(x);
    }
  }

  /** After `birth` the agent is a newborn: its genotype bred from the parent and within
      bounds, zero payoff, the phenotype at BASE and no partner; its former partner has no
      partner either and is back at BASE; no one else changes; the partner relation stays
      symmetric. */
  lemma RebornFacts(cfg: Config, pop: seq<Agent>, i: nat, parent: Option<nat>, d: GeneDraws)
    requires i < |pop| && AllSound(pop) && Symmetric(pop)
    requires parent.Some? ==> parent.value < |pop|
    ensures var pop' := Reborn(cfg, pop, i, parent, d);
            && AllSound(pop') && Symmetric(pop')
            && pop'[i] == Newborn(cfg, ParentGeno(pop, parent), d)
            && (pop[i].partner.Some? ==> pop'[pop[i].partner.value] == Ended(pop[pop[i].partner.value]))
            && forall x | 0 <= x < |pop| && x != i && Some(x) != pop[i].partner :: pop'[x] == pop[x]
  {
    ReplacedFacts(pop, i, Newborn(cfg, ParentGeno(pop, parent), d));
  }

  /** Agent `x`, of id `a`, and agent `y`, of id `b`, are each other's partners or both
      single. */
  predicate Mates(x: Agent, y: Agent, a: nat, b: nat) {
    (x.partner == Some(b) && y.partner == Some(a)) || (x.partner.None? && y.partner.None?)
  }

  /** The deceit gate of `update_affect`: whether the `other` agent deceives. */
  function Deceives(cfg: Config, other: Agent, result: Outcome, d: AffectDraws): bool {
    Deceived(cfg, result, Phen(other, Deceit), d.deceit)
  }

  /** The outcome an agent responds to in `update_affect`: `result` after the other agent's
      deceit and the perceptual noise. */
  function Perceives(cfg: Config, other: Agent, result: Outcome, d: AffectDraws): Outcome {
    Perceived(cfg, result, Deceives(cfg, other, result, d), d.percept)
  }

  /** `me.update_affect(other, result)`, as the new `me` and the new `other`: the other agent
      pays the cost of deceit when it deceives, and `me`'s phenotype responds to the outcome
      it perceives. */
  function Affected(cfg: Config, me: Agent, other: Agent, result: Outcome, d: AffectDraws): (r: (Agent, Agent)) {
    var other' := if Deceives(cfg, other, result, d) then other.(payoff := other.payoff - cfg.deceitCost) else other;
    (me.(phen := Affect(cfg.emotions, me.geno, me.phen, Perceives(cfg, other, result, d))), other')
  }

  /** `update_affect` changes only `me`'s phenotype and the other agent's payoff; the payoff
      drops by `deceitcost` exactly when the other agent deceives, which needs deceit to be
      allowed and the outcome to be S or P; with emotions every trait of the new phenotype
      lies within [-1, 1], and without them it is the genotype's response to the perceived
      outcome. */
  lemma AffectedFacts(cfg: Config, me: Agent, other: Agent, result: Outcome, d: AffectDraws)
    ensures var r := Affected(cfg, me, other, result, d);
            && r.0 == me.(phen := r.0.phen) && r.1 == other.(payoff := r.1.payoff)
            && r.1.payoff == (if Deceives(cfg, other, result, d) then other.payoff - cfg.deceitCost else other.payoff)
            && (Deceives(cfg, other, result, d) ==> cfg.allowDeceit && (result == S || result == P))
            && (cfg.emotions ==> forall t :: -1.0 <= Phen(r.0, t) <= 1.0)
            && (!cfg.emotions ==> forall t :: Phen(r.0, t) == Gene(me.geno, t, On(Perceives(cfg, other, result, d))))
  {
  }

  /** The divorce test of `update_relationship`: divorce is allowed and the agent, after its
      affect update, does not decide to stay attached. */
  predicate Divorces(cfg: Config, a: Agent, u: Unit) {
    cfg.allowDivorce && !Decide(cfg, Phen(a, Attach), u)
  }

  /** The divorce in `update_relationship`, as the new `me` and the new partner: the partner
      pays `divorcecost` and ends the relationship, then `me` does the same. */
  function Divorced(cfg: Config, me: Agent, partner: Agent): (r: (Agent, Agent))
    ensures r.0.partner.None? && r.1.partner.None?
    ensures r.0.payoff == me.payoff - cfg.divorceCost && r.1.payoff == partner.payoff - cfg.divorceCost
    ensures r.0.geno == me.geno && r.1.geno == partner.geno
    ensures r.0.phen == BasePhen(me.geno) && r.1.phen == BasePhen(partner.geno)
  {
    var partner' := Ended(partner.(payoff := partner.payoff - cfg.divorceCost));
    (Ended(me.(payoff := me.payoff - cfg.divorceCost)), partner')
  }

  /** `self.payoff += params[result]`. */
  function Earned(cfg: Config, me: Agent, result: Outcome): Agent {
    me.(payoff := me.payoff + Payoff(cfg, result))
  }

  /** `me.update_relationship(result)`, as the new `me` and the new `other`, `other` being
      `me`'s partner when it has one: `me` earns the payoff of `result`; with a partner it
      updates its affect and, on divorce, both pay `divorcecost` and end the relationship. */
  function Related(cfg: Config, me: Agent, other: Agent, result: Outcome, d: RelationshipDraws): (r: (Agent, Agent)) {
    var p := Earned(cfg, me, result);
    if p.partner.None? then (p, other)
    else
      var e := Affected(cfg, p, other, result, d.affect);
      if Divorces(cfg, e.0, d.attach) then Divorced(cfg, e.0, e.1) else e
  }

  /** `update_relationship` of an agent of a couple, or of a single agent with another single
      agent, leaves them a couple or both single, and changes no genotype. */
  lemma RelatedCouple(cfg: Config, me: Agent, other: Agent, i: nat, k: nat, result: Outcome, d: RelationshipDraws)
    requires Mates(me, other, i, k)
    ensures var r := Related(cfg, me, other, result, d);
            Mates(r.0, r.1, i, k) && r.0.geno == me.geno && r.1.geno == other.geno
  {
  }

  /** A single agent only earns the payoff of its outcome; no one else changes. */
  lemma RelatedSingle(cfg: Config, me: Agent, other: Agent, result: Outcome, d: RelationshipDraws)
    requires me.partner.None?
    ensures Related(cfg, me, other, result, d) == (Earned(cfg, me, result), other)
  {
  }

  /** A partnered agent that divorces after its affect update charges itself and its partner
      `divorcecost`, and both end without a partner and with the phenotype at BASE; otherwise
      the couple stays together, the agent having earned the payoff of its outcome. */
  lemma RelatedDivorce(cfg: Config, me: Agent, other: Agent, result: Outcome, d: RelationshipDraws)
    requires me.partner.Some?
    ensures var r := Related(cfg, me, other, result, d);
            var e := Affected(cfg, Earned(cfg, me, result), other, result, d.affect);
            if Divorces(cfg, e.0, d.attach) then
              && r.0.partner.None? && r.1.partner.None?
              && r.0.payoff == me.payoff + Payoff(cfg, result) - cfg.divorceCost
              && r.1.payoff == e.1.payoff - cfg.divorceCost
              && r.0.phen == BasePhen(me.geno) && r.1.phen == BasePhen(other.geno)
            else
              && r.0.partner == me.partner && r.1.partner == other.partner
              && r.0.payoff == me.payoff + Payoff(cfg, result)
  {
    AffectedFacts(cfg, Earned(cfg, me, result), other, result, d.affect);
  }

  /** `play(a, b)` on the agents' `cooper` phenotypes. */
  function Played(cfg: Config, x: Agent, y: Agent, d: PlayDraws): (Outcome, Outcome) {
    PlayOutcomes(cfg, Phen(x, Cooper), Phen(y, Cooper), d)
  }

  /** Whether both agents decide to stay attached after a pretend round; `y` decides only when
      `x` does. */
  predicate StayAttached(cfg: Config, x: Agent, y: Agent, d: PretendDraws) {
    Decide(cfg, Phen(x, Attach), d.attachA) && Decide(cfg, Phen(y, Attach), d.attachB)
  }

  /** `play_pretend(a, b)`, as the new `a`, the new `b` and its return value: a round of play
      whose outcome only moves the affect of the two (with deceit), both paying `playcost`;
      the pair breaks off, both ending the relationship, unless both decide to stay
      attached. */
  function Pretended(cfg: Config, x: Agent, y: Agent, d: PretendDraws): (r: (Agent, Agent, bool))
    ensures r.0.geno == x.geno && r.1.geno == y.geno
    ensures r.2 ==> r.0.partner == x.partner && r.1.partner == y.partner
    ensures !r.2 ==> r.0.partner.None? && r.1.partner.None?
  {
    var res := Played(cfg, x, y, d.play);
    var x1 := x.(payoff := x.payoff - cfg.playCost);
    var y1 := y.(payoff := y.payoff - cfg.playCost);
    var eb := Affected(cfg, y1, x1, res.1, d.affectB);
    var ea := Affected(cfg, eb.1, eb.0, res.0, d.affectA);
    if StayAttached(cfg, ea.0, ea.1, d) then (ea.0, ea.1, true) else (Ended(ea.0), Ended(ea.1), false)
  }

  /** A pretend round costs each of the two `playcost`, plus `deceitcost` when it deceived
      the other, and deceit costs nothing when it is not allowed. */
  lemma PretendedFacts(cfg: Config, x: Agent, y: Agent, d: PretendDraws)
    ensures var r := Pretended(cfg, x, y, d);
            && (r.0.payoff == x.payoff - cfg.playCost || r.0.payoff == x.payoff - cfg.playCost - cfg.deceitCost)
            && (r.1.payoff == y.payoff - cfg.playCost || r.1.payoff == y.payoff - cfg.playCost - cfg.deceitCost)
            && (!cfg.allowDeceit ==> r.0.payoff == x.payoff - cfg.playCost && r.1.payoff == y.payoff - cfg.playCost)
  {
  }

  /** `play_pretend` returns True exactly when both agents decide to stay attached on the
      phenotypes their affect updates left them, `b`'s update (with `b`'s outcome) coming first
      and `a`'s second, each after paying `playcost`; then both leave as updated. On False both
      end the relationship: the payoffs are as updated, there is no partner, and each
      phenotype is back at the BASE of its genotype. */
  lemma PretendedAttach(cfg: Config, x: Agent, y: Agent, d: PretendDraws)
    ensures var res := Played(cfg, x, y, d.play);
            var eb := Affected(cfg, y.(payoff := y.payoff - cfg.playCost), x.(payoff := x.payoff - cfg.playCost), res.1, d.affectB);
            var ea := Affected(cfg, eb.1, eb.0, res.0, d.affectA);
            var r := Pretended(cfg, x, y, d);
            && (r.2 <==> StayAttached(cfg, ea.0, ea.1, d))
            && (r.2 ==> r.0 == ea.0 && r.1 == ea.1)
            && (!r.2 ==> && r.0.partner.None? && r.1.partner.None?
                         && r.0.payoff == ea.0.payoff && r.1.payoff == ea.1.payoff
                         && r.0.phen == BasePhen(x.geno) && r.1.phen == BasePhen(y.geno))
  {
  }

  /** `paid` is `earned`, or `earned` less `deceitcost` when deceit is allowed. */
  predicate DeceitCharged(cfg: Config, paid: real, earned: real) {
    paid == earned || (cfg.allowDeceit && paid == earned - cfg.deceitCost)
  }

  /** `interact(a, b)`, as the new `a`, the new `b` and the two outcomes: a round of play, then
      `b`'s and `a`'s `update_relationship` with their outcomes. */
  function Interacted(cfg: Config, x: Agent, y: Agent, d: InteractDraws): (r: (Agent, Agent, Outcome, Outcome))
    ensures (r.2, r.3) == Played(cfg, x, y, d.play)
  {
    var res := Played(cfg, x, y, d.play);
    var rb := Related(cfg, y, x, res.1, d.relB);
    var ra := Related(cfg, rb.1, rb.0, res.0, d.relA);
    (ra.0, ra.1, res.0, res.1)
  }

  /** An interaction leaves a couple a couple or both single, and two single agents single,
      each having earned the payoff of its outcome. */
  lemma InteractedCouple(cfg: Config, x: Agent, y: Agent, a: nat, b: nat, d: InteractDraws)
    requires Mates(x, y, a, b)
    ensures var r := Interacted(cfg, x, y, d);
            && Mates(r.0, r.1, a, b) && r.0.geno == x.geno && r.1.geno == y.geno
            && (x.partner.None? ==> r.0 == Earned(cfg, x, r.2) && r.1 == Earned(cfg, y, r.3))
  {
    var res := Played(cfg, x, y, d.play);
    RelatedCouple(cfg, y, x, b, a, res.1, d.relB);
    var rb := Related(cfg, y, x, res.1, d.relB);
    RelatedCouple(cfg, rb.1, rb.0, a, b, res.0, d.relA);
  }

  /** What a couple earns in one interaction: each agent gains the payoff of its own outcome,
      less `deceitcost` if its partner's deceit was charged to it, and, when the couple breaks
      up, less `divorcecost` for both of them, who are then back at BASE. Deceit is never
      charged when both cooperated; without deceit and divorce each agent gains exactly its
      payoff and the couple stays together. */
  lemma InteractedPayoffs(cfg: Config, x: Agent, y: Agent, a: nat, b: nat, d: InteractDraws)
    requires x.partner == Some(b) && y.partner == Some(a)
    ensures var r := Interacted(cfg, x, y, d);
            var divorce := if r.0.partner.None? then cfg.divorceCost else 0.0;
            && Mates(r.0, r.1, a, b)
            && DeceitCharged(cfg, r.0.payoff, x.payoff + Payoff(cfg, r.2) - divorce)
            && DeceitCharged(cfg, r.1.payoff, y.payoff + Payoff(cfg, r.3) - divorce)
            && (r.2 == R && r.3 == R ==>
                  r.0.payoff == x.payoff + Payoff(cfg, R) - divorce && r.1.payoff == y.payoff + Payoff(cfg, R) - divorce)
            && (r.0.partner.None? ==> cfg.allowDivorce && r.0.phen == BasePhen(x.geno) && r.1.phen == BasePhen(y.geno))
            && (!cfg.allowDivorce ==> r.0.partner == Some(b) && r.1.partner == Some(a))
            && (!cfg.allowDeceit && !cfg.allowDivorce ==>
                  r.0.payoff == x.payoff + Payoff(cfg, r.2) && r.1.payoff == y.payoff + Payoff(cfg, r.3))
  {
    var res := Played(cfg, x, y, d.play);
    var yE := Earned(cfg, y, res.1);
    var eb := Affected(cfg, yE, x, res.1, d.relB.affect);
    AffectedFacts(cfg, yE, x, res.1, d.relB.affect);
    var rb := Related(cfg, y, x, res.1, d.relB);
    if Divorces(cfg, eb.0, d.relB.attach) {
      assert rb == Divorced(cfg, eb.0, eb.1);
      RelatedSingle(cfg, rb.1, rb.0, res.0, d.relA);
    } else {
      assert rb == eb;
      var xE := Earned(cfg, rb.1, res.0);
      var ea := Affected(cfg, xE, rb.0, res.0, d.relA.affect);
      AffectedFacts(cfg, xE, rb.0, res.0, d.relA.affect);
      var ra := Related(cfg, rb.1, rb.0, res.0, d.relA);
      if Divorces(cfg, ea.0, d.relA.attach) {
        assert ra == Divorced(cfg, ea.0, ea.1);
      } else {
        assert ra == ea;
      }
    }
  }

  /** Whether the courtship loop runs another round: `x` or `y` decides to play, the pair is
      still together, and fewer than `play_max` rounds have been run. */
  predicate CourtContinues(cfg: Config, x: Agent, y: Agent, d: CourtDraws, rounds: nat, stay: bool) {
    (Decide(cfg, Phen(x, Play), d.playA) || Decide(cfg, Phen(y, Play), d.playB))
    && stay && rounds < PlayMax
  }

  /** The courtship sub-loop of `pair_interact` from round `rounds` on, as the final `a`, the
      final `b`, whether the pair stays together and the number of rounds run. */
  function Courted(cfg: Config, x: Agent, y: Agent, court: nat -> CourtDraws, rounds: nat, stay: bool)
    : (r: (Agent, Agent, bool, nat))
    requires rounds <= PlayMax
    decreases PlayMax - rounds, 2
  {
    if stay && rounds < PlayMax then CourtTest(cfg, x, y, court, rounds)
    else (x, y, stay, rounds)
  }

  /** The loop from the `decide("play")` test of round `rounds` on, the pair being together
      and below the cap. */
  function CourtTest(cfg: Config, x: Agent, y: Agent, court: nat -> CourtDraws, rounds: nat)
    : (r: (Agent, Agent, bool, nat))
    requires rounds < PlayMax
    decreases PlayMax - rounds, 1
  {
    var d := court(rounds);
    if Decide(cfg, Phen(x, Play), d.playA) || Decide(cfg, Phen(y, Play), d.playB) then CourtRound(cfg, x, y, court, rounds)
    else (x, y, true, rounds)
  }

  /** One round of the courtship loop and the rounds after it. */
  function CourtRound(cfg: Config, x: Agent, y: Agent, court: nat -> CourtDraws, rounds: nat)
    : (r: (Agent, Agent, bool, nat))
    requires rounds < PlayMax
    decreases PlayMax - rounds, 0
  {
    var p := Pretended(cfg, x, y, court(rounds).pretend);
    Courted(cfg, p.0, p.1, court, rounds + 1, p.2)
  }

  /** The courtship leaves both agents well formed with their genotypes, runs at most
      `play_max` rounds in all, keeps two single agents single, and ends together only if the
      pair was together when it began. */
  lemma {:induction false} CourtedFacts(cfg: Config, x: Agent, y: Agent, court: nat -> CourtDraws, rounds: nat, stay: bool)
    requires rounds <= PlayMax
    ensures var r := Courted(cfg, x, y, court, rounds, stay);
            && r.0.geno == x.geno && r.1.geno == y.geno
            && rounds <= r.3 <= PlayMax
            && (x.partner.None? && y.partner.None? ==> r.0.partner.None? && r.1.partner.None?)
            && (r.2 ==> stay)
    decreases PlayMax - rounds
  {
    if CourtContinues(cfg, x, y, court(rounds), rounds, stay) {
      var p := Pretended(cfg, x, y, court(rounds).pretend);
      CourtUnfolds(cfg, x, y, court, rounds, stay);
      CourtedFacts(cfg, p.0, p.1, court, rounds + 1, p.2);
    }
  }

  /** A round of courtship that the loop test lets through leads to the courtship from the
      next round on. */
  lemma CourtUnfolds(cfg: Config, x: Agent, y: Agent, court: nat -> CourtDraws, rounds: nat, stay: bool)
    requires rounds <= PlayMax && CourtContinues(cfg, x, y, court(rounds), rounds, stay)
    ensures var p := Pretended(cfg, x, y, court(rounds).pretend);
            Courted(cfg, x, y, court, rounds, stay) == Courted(cfg, p.0, p.1, court, rounds + 1, p.2)
  {
    assert Courted(cfg, x, y, court, rounds, stay) == CourtTest(cfg, x, y, court, rounds);
    assert CourtTest(cfg, x, y, court, rounds) == CourtRound(cfg, x, y, court, rounds);
  }

  /** The courtship loop at the test of round `rounds`, with `x` and `y` well formed, ends in
      `goal`. */
  predicate CourtAt(cfg: Config, x: Agent, y: Agent, court: nat -> CourtDraws, rounds: nat, stay: bool,
                    goal: (Agent, Agent, bool, nat)) {
    rounds <= PlayMax && Courted(cfg, x, y, court, rounds, stay) == goal
  }

  /** When the loop test fails, the courtship ends where it stands. */
  lemma CourtEnds(cfg: Config, x: Agent, y: Agent, court: nat -> CourtDraws, rounds: nat, stay: bool,
                  goal: (Agent, Agent, bool, nat))
    requires CourtAt(cfg, x, y, court, rounds, stay, goal)
    requires !CourtContinues(cfg, x, y, court(rounds), rounds, stay)
    ensures goal == (x, y, stay, rounds)
  {
    if stay && rounds < PlayMax {
      assert Courted(cfg, x, y, court, rounds, stay) == CourtTest(cfg, x, y, court, rounds);
    }
  }

  /** A round of courtship moves the loop to the test of the next round, with the same end. */
  lemma CourtSteps(cfg: Config, x: Agent, y: Agent, court: nat -> CourtDraws, rounds: nat, stay: bool,
                   goal: (Agent, Agent, bool, nat))
    requires CourtAt(cfg, x, y, court, rounds, stay, goal)
    requires CourtContinues(cfg, x, y, court(rounds), rounds, stay)
    ensures var p := Pretended(cfg, x, y, court(rounds).pretend);
            CourtAt(cfg, p.0, p.1, court, rounds + 1, p.2, goal)
  {
    CourtUnfolds(cfg, x, y, court, rounds, stay);
  }

  /** The courtship of a new pair: the sub-loop when play is allowed, otherwise no rounds and
      the pair stays together. */
  function Courtship(cfg: Config, x: Agent, y: Agent, court: nat -> CourtDraws): (r: (Agent, Agent, bool, nat))
    ensures r.0.geno == x.geno && r.1.geno == y.geno && r.3 <= PlayMax
    ensures x.partner.None? && y.partner.None? ==> r.0.partner.None? && r.1.partner.None?
    ensures !cfg.allowPlay ==> r == (x, y, true, 0)
  {
    if cfg.allowPlay then
      CourtedFacts(cfg, x, y, court, 0, true);
      Courted(cfg, x, y, court, 0, true)
    else (x, y, true, 0)
  }

  /** `a.partner = b; b.partner = a`. */
  function Coupled(x: Agent, y: Agent, a: nat, b: nat): (r: (Agent, Agent))
    ensures Mates(r.0, r.1, a, b) && r.0.partner.Some?
    ensures r.0.geno == x.geno && r.0.phen == x.phen && r.0.payoff == x.payoff
    ensures r.1.geno == y.geno && r.1.phen == y.phen && r.1.payoff == y.payoff
  {
    (x.(partner := Some(b)), y.(partner := Some(a)))
  }

  /** What one pairing step of `pair_interact` does to the chosen agents `x` (id `a`) and `y`
      (id `b`): a couple interacts; two single agents court, and if they stay together they
      become partners and interact. They end as a couple or both single, and their genotypes
      do not change. */
  function Stepped(cfg: Config, x: Agent, y: Agent, a: nat, b: nat, d: StepDraws): (r: (Agent, Agent))
    requires Mates(x, y, a, b)
    ensures Mates(r.0, r.1, a, b)
    ensures r.0.geno == x.geno && r.1.geno == y.geno
  {
    if x.partner.Some? then
      InteractedCouple(cfg, x, y, a, b, d.interact);
      var i := Interacted(cfg, x, y, d.interact);
      (i.0, i.1)
    else
      var c := Courtship(cfg, x, y, d.court);
      if c.2 then
        var m := Coupled(c.0, c.1, a, b);
        InteractedCouple(cfg, m.0, m.1, a, b, d.interact);
        var i := Interacted(cfg, m.0, m.1, d.interact);
        (i.0, i.1)
      else (c.0, c.1)
  }

  /** Changing only two agents, leaving them well formed with their genotypes, keeps every
      agent sound. */
  lemma OutsideSound(pop: seq<Agent>, pop': seq<Agent>, a: nat, b: nat)
    requires AllSound(pop) && Outside(pop, pop', a, b) && a < |pop| && b < |pop|
    requires pop'[a].geno == pop[a].geno && pop'[b].geno == pop[b].geno
    ensures AllSound(pop')
  {
  }

  /** Every agent keeps its genotype. */
  predicate GenesKept(pop: seq<Agent>, pop': seq<Agent>) {
    |pop'| == |pop| && forall x | 0 <= x < |pop| :: pop'[x].geno == pop[x].geno
  }

  /** A change of `a` and `b` that keeps their genotypes keeps every genotype, and genotypes
      kept over two changes are kept over both. */
  lemma OutsideGenes(pop0: seq<Agent>, pop: seq<Agent>, pop': seq<Agent>, a: nat, b: nat)
    requires GenesKept(pop0, pop) && Outside(pop, pop', a, b) && a < |pop| && b < |pop|
    requires pop'[a].geno == pop[a].geno && pop'[b].geno == pop[b].geno
    ensures GenesKept(pop0, pop')
  {
  }
}
