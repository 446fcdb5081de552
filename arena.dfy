/**
 * The arena of one replica (`run` and the functions it calls) as a class: the population of
 * agents, the four agent lists, the per-sample statistics and the strategy histogram, updated
 * in place the way the source updates them. Each method is proved to compute the matching
 * function of the population model, and the list bookkeeping is an invariant of the class.
 */
module Arena {
  import opened Wrappers
  import opened Game
  import opened Params
  import opened Genome
  import opened Chance
  import opened Lists
  import opened Stats
  import opened Selection
  import opened Population
  import opened Books

  /** An agent as `Agent()` sets it up before its first `birth`: zero genotype and phenotype. */
  const Blank: Agent := Agent(Genotype(Zero, Zero, Zero, Zero), Phenotype(0.0, 0.0, 0.0, 0.0), 0.0, None)
  const Zero: Rule := Rule(0.0, 0.0, 0.0, 0.0, 0.0, 0.0)

  /** The agent ids `0 .. n-1`. */
  function Ids(n: nat): (r: seq<nat>)
    ensures |r| == n && forall i | 0 <= i < n :: r[i] == i
  {
    if n == 0 then [] else Ids(n - 1) + [n - 1]
  }

  /** The lifetime payoffs of the listed agents, in list order. */
  function Payoffs(pop: seq<Agent>, list: seq<nat>): (r: seq<real>)
    requires forall j | 0 <= j < |list| :: list[j] < |pop|
  {
    seq(|list|, j requires 0 <= j < |list| => pop[list[j]].payoff)
  }

  /** The ids are distinct and below `n`. */
  lemma {:induction false} IdsFresh(n: nat)
    ensures NoDup(Ids(n)) && forall x | x in Ids(n) :: x < n
  {
    if n > 0 {
      var m: nat := n - 1;
      IdsFresh(m);
      AppendFresh(Ids(m), m);
    }
  }

  /** The first `n` agents of `run`, each born without a parent from its own draws. */
  ghost predicate Founded(cfg: Config, pop: seq<Agent>, births: nat -> GeneDraws, n: nat) {
    |pop| == n && forall k | 0 <= k < n :: pop[k] == Newborn(cfg, None, births(k))
  }

  /** One more agent born without a parent keeps the population founded. */
  lemma FoundedStep(cfg: Config, pop: seq<Agent>, births: nat -> GeneDraws, n: nat)
    requires Founded(cfg, pop, births, n)
    ensures Founded(cfg, pop + [Newborn(cfg, None, births(n))], births, n + 1)
  {
  }

  /** A founded population is sound and has no partners. */
  lemma FoundedFacts(cfg: Config, pop: seq<Agent>, births: nat -> GeneDraws, n: nat)
    requires Founded(cfg, pop, births, n)
    ensures AllSound(pop) && forall x | 0 <= x < |pop| :: pop[x].partner.None?
  {
  }

  /** After the loops of `birth`: the genotype is the offspring and the phenotype at BASE. */
  lemma Born(cfg: Config, pg: Option<Genotype>, d: GeneDraws, geno: Genotype, phen: Phenotype)
    requires BredUpTo(cfg, pg, d, geno, |Traits|, 0)
    requires forall u | 0 <= u < |Traits| :: Value(phen, Traits[u]) == Bred(cfg, pg, d, Traits[u], Base)
    ensures Agent(geno, phen, 0.0, None) == Newborn(cfg, pg, d)
  {
    BredAll(cfg, pg, d, geno);
    forall t
      ensures Value(phen, t) == Value(BasePhen(geno), t)
    {
      assert Traits[TraitIndex(t)] == t;
    }
    PhenotypeExt(phen, BasePhen(geno));
  }

  /** `a.discretize()` with the defaults every agent of a run uses. */
  function Strategy(a: Agent): string {
    Discretize(a.geno, MinGeno, MaxGeno, DiscreteBuckets)
  }

  /** The keys of the listed agents, in list order. */
  function Keys(pop: seq<Agent>, list: seq<nat>, key: Agent -> string): (r: seq<string>)
    requires forall j | 0 <= j < |list| :: list[j] < |pop|
    ensures |r| == |list|
  {
    seq(|list|, j requires 0 <= j < |list| => key(pop[list[j]]))
  }

  class Arena {
    const cfg: Config
    /** Every agent ever made, by id; an agent's `partner` is the partner's id. */
    var pop: seq<Agent>
    var agents: seq<nat>
    var pool: seq<nat>
    var agentsUsed: seq<nat>
    var poolUsed: seq<nat>
    /** The statistics, one `Tally` per sample slot. */
    var stats: seq<Tally>
    var histo: map<string, int>

    /** The invariant of `run`: well-formed agents with a symmetric partner relation; each of
        `agents` and `agents_used` without repeats, disjoint, holding the partner of each of its
        partnered agents, with `pool` and `pool_used` its single agents, and with the parity
        that keeps the pool from running dry; a slot for every sampled iteration. */
    ghost predicate Valid()
      reads this
    {
      && cfg.sampleFreq > 0 && |stats| == SampleCount(cfg.iterations, cfg.sampleFreq)
      && AllSound(pop) && Arranged(pop, agents, pool, agentsUsed, poolUsed)
    }

    /** `end_relationship` of agent `i`: no partner, then every trait back at its BASE. */
    method EndRelationship(i: nat)
      requires i < |pop|
      modifies this`pop
      ensures pop == old(pop)[i := Ended(old(pop)[i])]
    {
      var me := pop[i];
      var phen := me.phen;
      TraitsDistinct();
      for k := 0 to |Traits|
        invariant forall u | 0 <= u < k :: Value(phen, Traits[u]) == Gene(me.geno, Traits[u], Base)
      {
        phen := SetValue(phen, Traits[k], Gene(me.geno, Traits[k], Base));
      }
      forall t
        ensures Value(phen, t) == Value(BasePhen(me.geno), t)
      {
        assert Traits[TraitIndex(t)] == t;
      }
      PhenotypeExt(phen, BasePhen(me.geno));
      pop := pop[i := me.(partner := None, phen := phen)];
    }

    /** `birth` of agent `i` from `parent` (none for the initial population): zero payoff, every
        genotype component drawn by `_calc_genotype` and each trait's phenotype set to its
        BASE, trait by trait, then the former partner, if any, ending the relationship. */
    method Birth(i: nat, parent: Option<nat>, d: GeneDraws)
      requires i < |pop| && Linked(pop)
      requires parent.Some? ==> parent.value < |pop|
      modifies this`pop
      ensures pop == Reborn(cfg, old(pop), i, parent, d)
    {
      var pg := ParentGeno(pop, parent);
      var partner := pop[i].partner;
      var geno, phen := Breed(pg, d, pop[i].geno, pop[i].phen);
      pop := pop[i := Agent(geno, phen, 0.0, partner)];
      if partner.Some? {
        EndRelationship(partner.value);
      }
      pop := pop[i := pop[i].(partner := None)];
    }

    /** The loops of `birth`: trait by trait, every component of the genotype is drawn by
        `_calc_genotype`, then the trait's phenotype is set to its BASE. The result is the
        offspring's genotype and its phenotype at BASE, whatever the agent held before. */
    method Breed(pg: Option<Genotype>, d: GeneDraws, geno0: Genotype, phen0: Phenotype)
      returns (geno: Genotype, phen: Phenotype)
      ensures Agent(geno, phen, 0.0, None) == Newborn(cfg, pg, d)
    {
      geno, phen := geno0, phen0;
      TraitsDistinct();
      PartsDistinct();
      for k := 0 to |Traits|
        invariant BredUpTo(cfg, pg, d, geno, k, 0)
        invariant forall u | 0 <= u < k :: Value(phen, Traits[u]) == Bred(cfg, pg, d, Traits[u], Base)
      {
        var t := Traits[k];
        for c := 0 to |Parts|
          invariant BredUpTo(cfg, pg, d, geno, k, c)
        {
          geno := SetGene(geno, t, Parts[c], Bred(cfg, pg, d, t, Parts[c]));
        }
        assert Gene(geno, t, Parts[0]) == Bred(cfg, pg, d, t, Base);
        phen := SetValue(phen, t, Gene(geno, t, Base));
      }
      Born(cfg, pg, d, geno, phen);
    }

    /** `i.update_affect(k, result)`: the deceit gate and the perceptual noise settle the
        outcome `i` responds to, then each trait of `i` is updated in turn. */
    method UpdateAffect(i: nat, k: nat, result: Outcome, d: AffectDraws)
      requires i < |pop| && k < |pop| && i != k
      modifies this`pop
      ensures Outside(old(pop), pop, i, k) && (pop[i], pop[k]) == Affected(cfg, old(pop)[i], old(pop)[k], result, d)
    {
      var o := result;
      var deceived := Deceived(cfg, result, Phen(pop[k], Deceit), d.deceit);
      if deceived {
        pop := pop[k := pop[k].(payoff := pop[k].payoff - cfg.deceitCost)];
        o := DeceitRemap(o);
      }
      if PerceptNoise(cfg, d.percept) {
        o := PerceptRemap(o);
      }
      var me := pop[i];
      var phen := me.phen;
      TraitsDistinct();
      for n := 0 to |Traits|
        invariant forall u | 0 <= u < n :: Value(phen, Traits[u]) == Reacted(cfg.emotions, me.geno, me.phen, o, Traits[u])
        invariant forall u | n <= u < |Traits| :: Value(phen, Traits[u]) == Value(me.phen, Traits[u])
      {
        var t := Traits[n];
        if cfg.emotions {
          phen := SetValue(phen, t, Reappraise(Value(phen, t), Gene(me.geno, t, Base), Gene(me.geno, t, Vol), Gene(me.geno, t, On(o))));
        } else {
          phen := SetValue(phen, t, Gene(me.geno, t, On(o)));
        }
      }
      forall t
        ensures Value(phen, t) == Value(Affect(cfg.emotions, me.geno, me.phen, o), t)
      {
        assert Traits[TraitIndex(t)] == t;
      }
      PhenotypeExt(phen, Affect(cfg.emotions, me.geno, me.phen, o));
      pop := pop[i := me.(phen := phen)];
    }

    /** `i.update_relationship(result)`: a single agent only earns its payoff; a partnered one
        changes itself and its partner as `Related` says. */
    method UpdateRelationship(i: nat, result: Outcome, d: RelationshipDraws)
      requires i < |pop|
      requires pop[i].partner.Some? ==>
                 pop[i].partner.value < |pop| && pop[i].partner.value != i
      modifies this`pop
      ensures var me := old(pop)[i];
              if me.partner.None? then pop == old(pop)[i := Earned(cfg, me, result)]
              else var j := me.partner.value;
                   Outside(old(pop), pop, i, j) && (pop[i], pop[j]) == Related(cfg, me, old(pop)[j], result, d)
    {
      pop := pop[i := pop[i].(payoff := pop[i].payoff + Payoff(cfg, result))];
      if pop[i].partner.Some? {
        var j := pop[i].partner.value;
        UpdateAffect(i, j, result, d.affect);
        if Divorces(cfg, pop[i], d.attach) {
          Divorce(i, j);
        }
      }
    }

    /** The divorce of `update_relationship`: the partner `j` pays `divorcecost` and ends the
        relationship, then agent `i` does the same. */
    method Divorce(i: nat, j: nat)
      requires i < |pop| && j < |pop| && i != j
      modifies this`pop
      ensures Outside(old(pop), pop, i, j) && (pop[i], pop[j]) == Divorced(cfg, old(pop)[i], old(pop)[j])
    {
      pop := pop[j := pop[j].(payoff := pop[j].payoff - cfg.divorceCost)];
      EndRelationship(j);
      pop := pop[i := pop[i].(payoff := pop[i].payoff - cfg.divorceCost)];
      EndRelationship(i);
    }

    /** `play_pretend(a, b)`; `stay` is its return value. */
    method PlayPretend(a: nat, b: nat, d: PretendDraws) returns (stay: bool)
      requires a < |pop| && b < |pop| && a != b
      modifies this`pop
      ensures Outside(old(pop), pop, a, b) && (pop[a], pop[b], stay) == Pretended(cfg, old(pop)[a], old(pop)[b], d)
    {
      var res := Played(cfg, pop[a], pop[b], d.play);
      pop := pop[a := pop[a].(payoff := pop[a].payoff - cfg.playCost)];
      pop := pop[b := pop[b].(payoff := pop[b].payoff - cfg.playCost)];
      UpdateAffect(b, a, res.1, d.affectB);
      UpdateAffect(a, b, res.0, d.affectA);
      if !StayAttached(cfg, pop[a], pop[b], d) {
        EndRelationship(a);
        EndRelationship(b);
        stay := false;
      } else {
        stay := true;
      }
    }

    /** `interact(a, b, sample, stats)`: a round of play, `b`'s then `a`'s
        `update_relationship`, and, at a sample, `count` for `a` then `b` with their state after
        the updates. */
    method Interact(a: nat, b: nat, sample: Option<nat>, d: InteractDraws)
      requires a < |pop| && b < |pop| && a != b
      requires Couple(pop, a, b)
      requires sample.Some? ==> sample.value < |stats|
      modifies this`pop, this`stats
      ensures Outside(old(pop), pop, a, b)
      ensures var r := Interacted(cfg, old(pop)[a], old(pop)[b], d);
              && pop[a] == r.0 && pop[b] == r.1
              && stats == if sample.None? then old(stats)
                          else var s := sample.value;
                               old(stats)[s := Count(Count(old(stats)[s], r.2, r.0.phen, r.0.payoff),
                                                     r.3, r.1.phen, r.1.payoff)]
    {
      var res := Played(cfg, pop[a], pop[b], d.play);
      RelatedCouple(cfg, pop[b], pop[a], b, a, res.1, d.relB);
      UpdateRelationship(b, res.1, d.relB);
      UpdateRelationship(a, res.0, d.relA);
      if sample.Some? {
        var s := sample.value;
        var slot := Count(stats[s], res.0, pop[a].phen, pop[a].payoff);
        slot := Count(slot, res.1, pop[b].phen, pop[b].payoff);
        stats := stats[s := slot];
      }
    }

    /** The courtship sub-loop of `pair_interact`: play-pretend rounds while `a` or `b` decides
        to play, they stay together and fewer than `play_max` rounds have run; `rounds` is the
        final `counter`. */
    method Court(a: nat, b: nat, court: nat -> CourtDraws) returns (stay: bool, rounds: nat)
      requires a < |pop| && b < |pop| && a != b
      modifies this`pop
      ensures Outside(old(pop), pop, a, b)
      ensures (pop[a], pop[b], stay, rounds) == Courted(cfg, old(pop)[a], old(pop)[b], court, 0, true)
    {
      ghost var goal := Courted(cfg, pop[a], pop[b], court, 0, true);
      stay := true;
      rounds := 0;
      while CourtContinues(cfg, pop[a], pop[b], court(rounds), rounds, stay)
        invariant Outside(old(pop), pop, a, b)
        invariant CourtAt(cfg, pop[a], pop[b], court, rounds, stay, goal)
        decreases PlayMax - rounds
      {
        stay := PretendRound(a, b, court, rounds, stay, goal);
        rounds := rounds + 1;
      }
      CourtEnds(cfg, pop[a], pop[b], court, rounds, stay, goal);
    }

    /** One round of the courtship loop. */
    method PretendRound(a: nat, b: nat, court: nat -> CourtDraws, rounds: nat, stay: bool,
                        ghost goal: (Agent, Agent, bool, nat)) returns (stay': bool)
      requires a < |pop| && b < |pop| && a != b
      requires CourtAt(cfg, pop[a], pop[b], court, rounds, stay, goal)
      requires CourtContinues(cfg, pop[a], pop[b], court(rounds), rounds, stay)
      modifies this`pop
      ensures Outside(old(pop), pop, a, b)
      ensures CourtAt(cfg, pop[a], pop[b], court, rounds + 1, stay', goal)
    {
      CourtSteps(cfg, pop[a], pop[b], court, rounds, stay, goal);
      stay' := PlayPretend(a, b, court(rounds).pretend);
    }

    /** The branch of `pair_interact` for two single agents `a` and `b`: a new relationship
        at a sample, the courtship when play is allowed (its round count added at a sample),
        and, if they stay together, the partnership and the interaction. */
    method Meet(a: nat, b: nat, sample: Option<nat>, d: StepDraws)
      requires a < |pop| && b < |pop| && a != b
      requires Single(pop, a, b)
      requires sample.Some? ==> sample.value < |stats|
      modifies this`pop, this`stats
      ensures Outside(old(pop), pop, a, b) && (pop[a], pop[b]) == Stepped(cfg, old(pop)[a], old(pop)[b], a, b, d)
      ensures |stats| == |old(stats)| && (sample.None? ==> stats == old(stats))
    {
      if sample.Some? {
        stats := stats[sample.value := NewRelationship(stats[sample.value])];
      }
      var stay := true;
      if cfg.allowPlay {
        var rounds;
        stay, rounds := Court(a, b, d.court);
        if sample.Some? {
          stats := stats[sample.value := PlayCounted(stats[sample.value], rounds)];
        }
      }
      if stay {
        Bond(a, b, sample, d.interact);
      }
    }

    /** Two single agents that stayed together become partners and interact. */
    method Bond(a: nat, b: nat, sample: Option<nat>, d: InteractDraws)
      requires a < |pop| && b < |pop| && a != b
      requires sample.Some? ==> sample.value < |stats|
      modifies this`pop, this`stats
      ensures var m := Coupled(old(pop)[a], old(pop)[b], a, b);
              var r := Interacted(cfg, m.0, m.1, d);
              Outside(old(pop), pop, a, b) && pop[a] == r.0 && pop[b] == r.1
      ensures |stats| == |old(stats)| && (sample.None? ==> stats == old(stats))
    {
      pop := pop[a := pop[a].(partner := Some(b))];
      pop := pop[b := pop[b].(partner := Some(a))];
      Interact(a, b, sample, d);
    }

    /** `pair_interact`: `a` and `b` are picked, they interact (or court, when single), and
        both leave `agents` for `agents_used`, joining `pool_used` when they end single. */
    method PairInteract(sample: Option<nat>, d: StepDraws) returns (a: nat, b: nat)
      requires Valid() && |agents| > 1
      requires sample.Some? ==> sample.value < |stats|
      modifies this`pop, this`agents, this`pool, this`agentsUsed, this`poolUsed, this`stats
      ensures Valid()
      ensures (a, b) == Chosen(old(pop), old(agents), old(pool), d.pickA, d.pickB)
      ensures Outside(old(pop), pop, a, b) && (pop[a], pop[b]) == Stepped(cfg, old(pop)[a], old(pop)[b], a, b, d)
      ensures agents == Remove(Remove(old(agents), a), b)
      ensures pool == if old(pop)[a].partner.None? then Remove(Remove(old(pool), a), b) else old(pool)
      ensures agentsUsed == old(agentsUsed) + [a, b]
      ensures poolUsed == if pop[a].partner.None? then old(poolUsed) + [a, b] else old(poolUsed)
      ensures |stats| == |old(stats)| && (sample.None? ==> stats == old(stats))
    {
      ghost var pop0, agents0, pool0, used0, poolUsed0 := pop, agents, pool, agentsUsed, poolUsed;
      a, b := Pick(d.pickA, d.pickB);
      RemoveDistinct(agents0, a);
      Engage(a, b, sample, d);
      Retire(a, b);
      StepValid(pop0, agents0, pool0, used0, poolUsed0, a, b);
    }

    lemma StepValid(pop0: seq<Agent>, agents0: seq<nat>, pool0: seq<nat>, used0: seq<nat>, poolUsed0: seq<nat>, a: nat, b: nat)
      requires cfg.sampleFreq > 0 && |stats| == SampleCount(cfg.iterations, cfg.sampleFreq)
      requires AllSound(pop0) && Arranged(pop0, agents0, pool0, used0, poolUsed0)
      requires a in agents0 && b in agents0 && a != b && a < |pop0| && b < |pop0| && Couple(pop0, a, b)
      requires pop0[a].partner.None? ==> a in pool0 && b in pool0
      requires Outside(pop0, pop, a, b) && Couple(pop, a, b)
      requires pop[a].geno == pop0[a].geno && pop[b].geno == pop0[b].geno
      requires agents == Remove(Remove(agents0, a), b)
      requires pool == if pop0[a].partner.None? then Remove(Remove(pool0, a), b) else pool0
      requires agentsUsed == used0 + [a, b]
      requires poolUsed == if pop[a].partner.None? then poolUsed0 + [a, b] else poolUsed0
      ensures Valid()
    {
      StepArranged(pop0, pop, agents0, pool0, used0, poolUsed0, a, b);
      OutsideSound(pop0, pop, a, b);
    }

    /** The choices of `pair_interact`: `a` leaves `agents`, and a single `a` leaves the pool,
        from which `b` is then drawn and removed; a partnered `a` takes its partner as `b`. */
    method Pick(pickA: nat, pickB: nat) returns (a: nat, b: nat)
      requires Arranged(pop, agents, pool, agentsUsed, poolUsed) && |agents| > 1
      modifies this`agents, this`pool
      ensures (a, b) == Chosen(pop, old(agents), old(pool), pickA, pickB)
      ensures agents == Remove(old(agents), a)
      ensures pool == if pop[a].partner.None? then Remove(Remove(old(pool), a), b) else old(pool)
    {
      ghost var chosen := Chosen(pop, agents, pool, pickA, pickB);
      a, agents := ChooseAndRemove(agents, pickA);
      if pop[a].partner.None? {
        PoolHasPartner(old(agents), pool, a);
        pool := RemoveFirst(pool, a);
        b, pool := ChooseAndRemove(pool, pickB);
      } else {
        b := pop[a].partner.value;
      }
    }

    /** The interaction of the chosen pair: a couple interacts, single agents meet. */
    method Engage(a: nat, b: nat, sample: Option<nat>, d: StepDraws)
      requires a < |pop| && b < |pop| && a != b
      requires Couple(pop, a, b)
      requires sample.Some? ==> sample.value < |stats|
      modifies this`pop, this`stats
      ensures Outside(old(pop), pop, a, b) && (pop[a], pop[b]) == Stepped(cfg, old(pop)[a], old(pop)[b], a, b, d)
      ensures |stats| == |old(stats)| && (sample.None? ==> stats == old(stats))
    {
      if pop[a].partner.Some? {
        Interact(a, b, sample, d.interact);
      } else {
        Meet(a, b, sample, d);
      }
    }

    /** The end of `pair_interact`: `b` leaves `agents`, both join `agents_used`, and both join
        `pool_used` when `a` ends single. */
    method Retire(a: nat, b: nat)
      requires a < |pop| && b in agents
      modifies this`agents, this`agentsUsed, this`poolUsed
      ensures agents == Remove(old(agents), b)
      ensures agentsUsed == old(agentsUsed) + [a, b]
      ensures poolUsed == if pop[a].partner.None? then old(poolUsed) + [a, b] else old(poolUsed)
    {
      agents := RemoveFirst(agents, b);
      agentsUsed := agentsUsed + [a, b];
      if pop[a].partner.None? {
        poolUsed := poolUsed + [a, b];
      }
    }
 
    /** The set-up of `run`: `population` agents, each made by `Agent()` and its first `birth`,
        all in `agents` and in `pool`; empty used lists, a zero slot of statistics for every
        sample and an empty histogram. */
    constructor (cfg: Config, births: nat -> GeneDraws)
      requires cfg.sampleFreq > 0
      ensures this.cfg == cfg && Valid()
      ensures |pop| == cfg.population && forall i | 0 <= i < cfg.population :: pop[i] == Newborn(cfg, None, births(i))
      ensures agents == Ids(cfg.population) && pool == Ids(cfg.population) && agentsUsed == [] && poolUsed == []
      ensures stats == seq(SampleCount(cfg.iterations, cfg.sampleFreq), _ => Empty) && histo == map[]
    {
      this.cfg := cfg;
      pop, agents, pool, agentsUsed, poolUsed := [], [], [], [], [];
      stats := seq(SampleCount(cfg.iterations, cfg.sampleFreq), _ => Empty);
      histo := map[];
      new;
      for i := 0 to cfg.population
        invariant Founded(cfg, pop, births, i)
        invariant agents == Ids(i) && pool == Ids(i)
        invariant agentsUsed == [] && poolUsed == [] && |stats| == SampleCount(cfg.iterations, cfg.sampleFreq)
        invariant stats == seq(SampleCount(cfg.iterations, cfg.sampleFreq), _ => Empty) && histo == map[]
      {
        Found(births, i);
      }
      FoundedFacts(cfg, pop, births, cfg.population);
      IdsFresh(cfg.population);
      FreshArranged(pop, agents);
    }

    /** One agent of the set-up of `run`: made by `Agent()`, then appended to `agents` and
        to `pool`. */
    method Found(births: nat -> GeneDraws, i: nat)
      requires Founded(cfg, pop, births, i) && agents == Ids(i) && pool == Ids(i)
      modifies this`pop, this`agents, this`pool
      ensures Founded(cfg, pop, births, i + 1) && agents == Ids(i + 1) && pool == Ids(i + 1)
    {
      FoundedFacts(cfg, pop, births, i);
      ghost var before := pop;
      NewAgent(births(i));
      FoundedStep(cfg, before, births, i);
      agents := agents + [i];
      pool := pool + [i];
    }

    /** `Agent()`: a blank agent, added to the population, then born without a parent. */
    method NewAgent(d: GeneDraws)
      requires Linked(pop)
      modifies this`pop
      ensures pop == old(pop) + [Newborn(cfg, None, d)]
    {
      pop := pop + [Blank];
      ghost var q := pop;
      Birth(|pop| - 1, None, d);
      assert q[|q| - 1 := Newborn(cfg, None, d)] == old(pop) + [Newborn(cfg, None, d)];
    }

    /** The pairing loop of one iteration, `while len(agents) > 1: pair_interact(...)`: every
        step takes two agents from `agents` to `agents_used`, so at the end at most the odd one
        out is left, a single agent; together the two lists hold the same agents as before, and
        no genotype changes. */
    method PairingRound(sample: Option<nat>, steps: nat -> StepDraws)
      requires Valid() && (sample.Some? ==> sample.value < |stats|)
      modifies this`pop, this`agents, this`pool, this`agentsUsed, this`poolUsed, this`stats
      ensures Valid() && |stats| == |old(stats)|
      ensures |agents| == |old(agents)| % 2 && (|agents| == 1 ==> agents == pool)
      ensures |agentsUsed| == |old(agentsUsed)| + |old(agents)| - |agents|
      ensures multiset(agents) + multiset(agentsUsed) == multiset(old(agents)) + multiset(old(agentsUsed))
      ensures GenesKept(old(pop), pop)
    {
      ghost var pop0, both, total, n0, slots := pop, multiset(agents) + multiset(agentsUsed),
        |agents| + |agentsUsed|, |agents|, |stats|;
      var k := 0;
      while |agents| > 1
        invariant Valid() && |stats| == slots
        invariant |agents| + 2 * k == n0 && |agents| + |agentsUsed| == total
        invariant multiset(agents) + multiset(agentsUsed) == both
        invariant GenesKept(pop0, pop)
        decreases |agents|
      {
        var a, b := PairStep(sample, steps(k), pop0);
        k := k + 1;
      }
      Leftover(n0, k, |agents|);
    }

    /** What is left of `n` after taking `k` pairs, when at most one is left, is `n`'s parity. */
    static lemma Leftover(n: nat, k: nat, r: nat)
      requires n == r + 2 * k && r <= 1
      ensures r == n % 2
    {
    }

    /** `pair_interact` as the pairing loop sees it: the chosen pair takes its new state and
        moves from `agents` to `agents_used`, and no genotype changes. */
    method PairStep(sample: Option<nat>, d: StepDraws, ghost pop0: seq<Agent>) returns (a: nat, b: nat)
      requires Valid() && |agents| > 1
      requires sample.Some? ==> sample.value < |stats|
      requires GenesKept(pop0, pop)
      modifies this`pop, this`agents, this`pool, this`agentsUsed, this`poolUsed, this`stats
      ensures Valid() && |stats| == |old(stats)|
      ensures (a, b) == Chosen(old(pop), old(agents), old(pool), d.pickA, d.pickB)
      ensures Outside(old(pop), pop, a, b) && (pop[a], pop[b]) == Stepped(cfg, old(pop)[a], old(pop)[b], a, b, d)
      ensures agents == Remove(Remove(old(agents), a), b) && agentsUsed == old(agentsUsed) + [a, b]
      ensures pool == if old(pop)[a].partner.None? then Remove(Remove(old(pool), a), b) else old(pool)
      ensures poolUsed == if pop[a].partner.None? then old(poolUsed) + [a, b] else old(poolUsed)
      ensures |agents| == |old(agents)| - 2 && |agentsUsed| == |old(agentsUsed)| + 2
      ensures multiset(agents) + multiset(agentsUsed) == multiset(old(agents)) + multiset(old(agentsUsed))
      ensures GenesKept(pop0, pop)
    {
      a, b := PairInteract(sample, d);
      RemoveTwo(old(agents), a, b);
      PairMoved(old(agents), old(agentsUsed), a, b);
      OutsideGenes(pop0, old(pop), pop, a, b);
    }

    /** After the pairing loop: `agents` and `pool` become copies of `agents_used` and
        `pool_used`, which are cleared; an odd agent left over drops out of the lists. */
    method Regroup()
      requires Valid() && |agents| <= 1
      modifies this`agents, this`pool, this`agentsUsed, this`poolUsed
      ensures Valid() && |agents| % 2 == 0
      ensures agents == old(agentsUsed) && pool == old(poolUsed) && agentsUsed == [] && poolUsed == []
    {
      agents, pool := agentsUsed, poolUsed;
      agentsUsed, poolUsed := [], [];
    }

    /** The fitness list of `run`: the lifetime payoff of each listed agent, in list order. */
    method Fitness() returns (fs: seq<real>)
      requires forall j | 0 <= j < |agents| :: agents[j] < |pop|
      ensures |fs| == |agents| && forall j | 0 <= j < |agents| :: fs[j] == pop[agents[j]].payoff
    {
      fs := [];
      for j := 0 to |agents|
        invariant |fs| == j && forall i | 0 <= i < j :: fs[i] == pop[agents[i]].payoff
      {
        fs := fs + [pop[agents[j]].payoff];
      }
    }

    /** The loop "death & reproduction": for the `j`-th parent, a victim drawn by `d(j)`
        joins the pool with its partner when it is not there, and is reborn from the parent. */
    method Reproduce(parents: seq<nat>, d: nat -> DeathDraws)
      requires Bookkept(pop, agents, pool) && Symmetric(pop) && AllSound(pop) && |agents| > 0
      requires forall j | 0 <= j < |parents| :: parents[j] < |pop|
      modifies this`pop, this`pool
      ensures (pop, pool) == Deaths(cfg, old(pop), agents, old(pool), parents, d)
    {
      for j := 0 to |parents|
        invariant (pop, pool) == Deaths(cfg, old(pop), agents, old(pool), parents[..j], d)
      {
        DeathsStep(cfg, old(pop), agents, old(pool), parents, d, j);
        Die(parents[j], d(j));
      }
      assert parents[..|parents|] == parents;
    }

    /** One death: the victim drawn by `d` joins the pool with its partner when it is not
        there, and is reborn from `parent`. */
    method Die(parent: nat, d: DeathDraws)
      requires Bookkept(pop, agents, pool) && Symmetric(pop) && AllSound(pop)
      requires |agents| > 0 && parent < |pop|
      modifies this`pop, this`pool
      ensures (pop, pool) == Death(cfg, old(pop), agents, old(pool), parent, d)
    {
      var v := agents[d.victim % |agents|];
      assert v in agents;
      if v !in pool {
        pool := pool + [v, pop[v].partner.value];
      }
      Birth(v, Some(parent), d.genes);
    }

    /** The record of sample `s`: the census of the strategies, the outcome counters made
        fractions of the interactions, and the unattached share. */
    method RecordSample(s: nat)
      requires Valid() && s < |stats| && cfg.population > 0
      modifies this`histo, this`stats
      ensures (ListedBelow(pop, agents, pool); histo == Tallied(old(histo), Keys(pop, agents, Strategy)))
      ensures stats == old(stats)[s := Unattached(Normalize(old(stats)[s]), |pool|, cfg.population)]
      ensures Valid()
    {
      ListedBelow(pop, agents, pool);
      Census(Strategy);
      stats := stats[s := Unattached(Normalize(stats[s]), |pool|, cfg.population)];
    }

    /** The histogram loop of a sample: the key of each listed agent counted in turn. */
    method Census(key: Agent -> string)
      requires forall j | 0 <= j < |agents| :: agents[j] < |pop|
      modifies this`histo
      ensures histo == Tallied(old(histo), Keys(pop, agents, key))
    {
      var listed, h := agents, histo;
      ghost var keys, h0 := Keys(pop, listed, key), h;
      for j := 0 to |listed|
        invariant h == Tallied(h0, keys[..j])
      {
        var k := key(pop[listed[j]]);
        TalliedPrefix(h0, keys, j);
        h := h[k := Hits(h, k) + 1];
      }
      assert keys[..|listed|] == keys;
      histo := h;
    }

    /** The play of one iteration: the pairing loop, then the regrouping; the agent list loses
        only its odd agent out. */
    method Play(sample: Option<nat>, steps: nat -> StepDraws)
      requires Valid() && agentsUsed == [] && poolUsed == [] && (sample.Some? ==> sample.value < |stats|)
      modifies this`pop, this`agents, this`pool, this`agentsUsed, this`poolUsed, this`stats
      ensures Valid() && agentsUsed == [] && poolUsed == [] && |stats| == |old(stats)|
      ensures |agents| == |old(agents)| - |old(agents)| % 2 && |agents| % 2 == 0 && |pop| == |old(pop)|
    {
      PairingRound(sample, steps);
      Regroup();
    }

    /** The evolution of one iteration: the parents drawn by the shifted fitness, then the
        deaths and births. */
    method Evolve(parentDraws: nat -> Unit, deathDraws: nat -> DeathDraws)
      requires Valid() && agentsUsed == [] && poolUsed == [] && |agents| > 0 && |agents| % 2 == 0
      modifies this`pop, this`pool
      ensures Valid() && |pop| == |old(pop)|
    {
      ListedBelow(pop, agents, pool);
      var parents := ChooseParents(parentDraws);
      Cull(parents, deathDraws);
    }

    /** The deaths and births of one iteration keep the invariant. */
    method Cull(parents: seq<nat>, d: nat -> DeathDraws)
      requires Valid() && agentsUsed == [] && poolUsed == [] && |agents| > 0 && |agents| % 2 == 0
      requires forall j | 0 <= j < |parents| :: parents[j] < |pop|
      modifies this`pop, this`pool
      ensures Valid() && (pop, pool) == Deaths(cfg, old(pop), agents, old(pool), parents, d)
    {
      ghost var pool0 := pool;
      Reproduce(parents, d);
      DeathsArranged(pop, agents, pool0, pool);
    }

    /** The fitness of `run` and the parents `random.choices` draws with it: `k` listed agents
        for `k = int(deaths * population)`, chosen by the payoffs shifted to a least value of
        zero. */
    method ChooseParents(draws: nat -> Unit) returns (parents: seq<nat>)
      requires |agents| > 0 && forall j | 0 <= j < |agents| :: agents[j] < |pop|
      ensures parents == Parents(agents, Payoffs(pop, agents), ParentCount(cfg), draws)
      ensures |parents| == ParentCount(cfg) && forall j | 0 <= j < |parents| :: parents[j] in agents && parents[j] < |pop|
    {
      var fs := Fitness();
      assert fs == Payoffs(pop, agents);
      parents := Parents(agents, fs, ParentCount(cfg), draws);
      forall j | 0 <= j < |parents|
        ensures parents[j] < |pop|
      {
        var i :| 0 <= i < |agents| && agents[i] == parents[j];
      }
    }

    /** Iteration `t` of `run`: at a sample, into slot `t / sample_freq`, the play, the
        evolution and the record. */
    method Iterate(t: nat, d: IterationDraws)
      requires Valid() && agentsUsed == [] && poolUsed == [] && |agents| >= 2
      requires t < cfg.iterations && cfg.population > 0
      modifies this`pop, this`agents, this`pool, this`agentsUsed, this`poolUsed, this`stats, this`histo
      ensures Valid() && agentsUsed == [] && poolUsed == []
      ensures |agents| == |old(agents)| - |old(agents)| % 2 && |pop| == |old(pop)|
    {
      var sample := SampleAt(t, cfg.sampleFreq);
      if sample.Some? {
        SampleInRange(cfg.iterations, cfg.sampleFreq, t);
      }
      Play(sample, d.steps);
      Evolve(d.parents, d.deaths);
      if sample.Some? {
        RecordSample(sample.value);
      }
    }

    /** The iterations of `run`, iteration `t` drawing `draws(t)`. */
    method Run(draws: nat -> IterationDraws)
      requires Valid() && agentsUsed == [] && poolUsed == [] && cfg.population > 0
      requires cfg.iterations > 0 ==> |agents| >= 2
      modifies this`pop, this`agents, this`pool, this`agentsUsed, this`poolUsed, this`stats, this`histo
      ensures Valid() && |pop| == |old(pop)|
      ensures cfg.iterations > 0 ==> |agents| == |old(agents)| - |old(agents)| % 2
    {
      for t := 0 to cfg.iterations
        invariant Valid() && agentsUsed == [] && poolUsed == [] && (cfg.iterations > 0 ==> |agents| >= 2)
        invariant |pop| == |old(pop)|
        invariant |agents| == if t == 0 then |old(agents)| else |old(agents)| - |old(agents)| % 2
      {
        Iterate(t, draws(t));
      }
    }
  }
}
