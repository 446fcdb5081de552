/**
 * The list bookkeeping of `run` and `pair_interact` as values: the lists `agents` and
 * `agents_used` with their sub-lists of single agents `pool` and `pool_used`, and what one
 * pairing step and one death do to them.
 */
module Books {
  import opened Wrappers
  import opened Lists
  import opened Population
  import opened Params
  import opened Chance

  /** A list of agents without repeats, naming agents of the population, whose sub-list
      `singles` holds exactly its agents without a partner, and which holds the partner of
      each of its partnered agents. */
  predicate Bookkept(pop: seq<Agent>, list: seq<nat>, singles: seq<nat>) {
    && NoDup(list) && NoDup(singles)
    && (forall x | x in list :: x < |pop|)
    && (forall x | x in singles :: x in list)
    && (forall x | x in list :: pop[x].partner.None? <==> x in singles)
    && (forall x | x in list && pop[x].partner.Some? :: pop[x].partner.value in list)
  }

  predicate Disjoint(xs: seq<nat>, ys: seq<nat>) {
    forall x | x in xs :: x !in ys
  }

  /** The parity facts that keep `choose_and_remove(pool)` from meeting an empty pool: the
      partnered agents of the list come in pairs, and an odd list has only single agents. */
  predicate Balanced(list: seq<nat>, singles: seq<nat>) {
    (|list| + |singles|) % 2 == 0 && (|list| % 2 == 0 || list == singles)
  }

  /** A single agent in a balanced list of at least two leaves another single agent once it
      is taken out of the pool. */
  lemma PoolHasPartner(list: seq<nat>, singles: seq<nat>, a: nat)
    requires Balanced(list, singles) && |list| > 1 && a in singles
    ensures |singles| >= 2
  {
  }

  /** Removing two distinct members from a list without repeats. */
  lemma RemoveTwo(s: seq<nat>, a: nat, b: nat)
    requires NoDup(s) && a in s && b in s && a != b
    ensures NoDup(Remove(Remove(s, a), b))
    ensures |Remove(Remove(s, a), b)| == |s| - 2
    ensures forall y :: y in Remove(Remove(s, a), b) <==> y in s && y != a && y != b
  {
    RemoveDistinct(s, a);
    RemoveCount(s, a);
    RemoveDistinct(Remove(s, a), b);
    RemoveCount(Remove(s, a), b);
  }

  /** Appending two fresh distinct agents keeps a list without repeats. */
  lemma AppendTwo(s: seq<nat>, a: nat, b: nat)
    requires NoDup(s) && a !in s && b !in s && a != b
    ensures NoDup(s + [a, b])
    ensures forall y :: y in s + [a, b] <==> y in s || y == a || y == b
  {
    AppendFresh(s, a);
    AppendFresh(s + [a], b);
    assert s + [a, b] == s + [a] + [b];
  }

  /** The two agents `pair_interact` pairs: `a` drawn from the list, then its partner, or,
      for a single `a`, an agent drawn from the pool without `a`. They are two distinct
      members of the list, a couple or both single. */
  function Chosen(pop: seq<Agent>, agents: seq<nat>, pool: seq<nat>, pickA: nat, pickB: nat)
    : (r: (nat, nat))
    requires Bookkept(pop, agents, pool) && Balanced(agents, pool) && Symmetric(pop)
    requires |agents| > 1
    ensures r.0 in agents && r.1 in agents && r.0 != r.1 && r.0 < |pop| && r.1 < |pop|
    ensures Couple(pop, r.0, r.1)
    ensures pop[r.0].partner.None? ==> r.0 in pool && r.1 in pool
  {
    var a := agents[pickA % |agents|];
    assert a in agents;
    if pop[a].partner.Some? then (a, pop[a].partner.value)
    else
      PoolHasPartner(agents, pool, a);
      RemoveDistinct(pool, a);
      var rest := Remove(pool, a);
      (a, rest[pickB % |rest|])
  }

  /** One pairing step on the lists: `a` and `b` (a couple, or two single agents, of the list)
      leave `agents` (and `pool`, when single), join `agents_used`, and join `pool_used` when
      they end single; if only `a` and `b` changed and they end a couple or both single, the
      bookkeeping of both lists, their disjointness and the partner symmetry all hold after. */
  lemma StepBooks(pop: seq<Agent>, pop': seq<Agent>,
                  agents: seq<nat>, pool: seq<nat>, used: seq<nat>, poolUsed: seq<nat>,
                  a: nat, b: nat)
    requires Bookkept(pop, agents, pool) && Bookkept(pop, used, poolUsed) && Disjoint(agents, used)
    requires Symmetric(pop)
    requires a in agents && b in agents && a != b
    requires Couple(pop, a, b)
    requires Outside(pop, pop', a, b) && Couple(pop', a, b)
    ensures var agents' := Remove(Remove(agents, a), b);
            var pool' := if pop[a].partner.None? then Remove(Remove(pool, a), b) else pool;
            var used' := used + [a, b];
            var poolUsed' := if pop'[a].partner.None? then poolUsed + [a, b] else poolUsed;
            && Bookkept(pop', agents', pool') && Bookkept(pop', used', poolUsed')
            && Disjoint(agents', used') && Symmetric(pop')
  {
    LeaveBooks(pop, pop', agents, pool, a, b);
    JoinBooks(pop, pop', agents, used, poolUsed, a, b);
    RemoveTwo(agents, a, b);
    AppendTwo(used, a, b);
    CoupleKeepsSymmetry(pop, pop', a, b);
  }

  /** The half of `StepBooks` about the list `a` and `b` leave. */
  lemma LeaveBooks(pop: seq<Agent>, pop': seq<Agent>, agents: seq<nat>, pool: seq<nat>, a: nat, b: nat)
    requires Bookkept(pop, agents, pool) && Symmetric(pop)
    requires a in agents && b in agents && a != b
    requires Couple(pop, a, b)
    requires Outside(pop, pop', a, b) && Couple(pop', a, b)
    ensures var agents' := Remove(Remove(agents, a), b);
            var pool' := if pop[a].partner.None? then Remove(Remove(pool, a), b) else pool;
            Bookkept(pop', agents', pool')
  {
    var agents' := Remove(Remove(agents, a), b);
    var pool' := if pop[a].partner.None? then Remove(Remove(pool, a), b) else pool;
    RemoveTwo(agents, a, b);
    if pop[a].partner.None? {
      RemoveTwo(pool, a, b);
    }
    assert forall y :: y in pool' <==> y in pool && y != a && y != b;
    forall x | x in agents' && pop'[x].partner.Some?
      ensures pop'[x].partner.value in agents'
    {
      var y := pop[x].partner.value;
      assert pop[y].partner == Some(x);
    }
  }

  /** The half of `StepBooks` about the list `a` and `b` join. */
  lemma JoinBooks(pop: seq<Agent>, pop': seq<Agent>, agents: seq<nat>,
                  used: seq<nat>, poolUsed: seq<nat>, a: nat, b: nat)
    requires Bookkept(pop, used, poolUsed) && Disjoint(agents, used)
    requires a in agents && b in agents && a != b && a < |pop| && b < |pop|
    requires Outside(pop, pop', a, b) && Couple(pop', a, b)
    ensures var used' := used + [a, b];
            var poolUsed' := if pop'[a].partner.None? then poolUsed + [a, b] else poolUsed;
            Bookkept(pop', used', poolUsed')
  {
    var poolUsed' := if pop'[a].partner.None? then poolUsed + [a, b] else poolUsed;
    AppendTwo(used, a, b);
    if pop'[a].partner.None? {
      AppendTwo(poolUsed, a, b);
    }
    assert forall y :: y in poolUsed' <==> y in poolUsed || (pop'[a].partner.None? && (y == a || y == b));
  }

  /** The invariant of the lists during a pairing round: both lists kept, disjoint, with a
      symmetric partner relation, with the parities that keep the pool from running dry, and
      with the pairs taken so far in `used` and `poolUsed` complete. */
  predicate Arranged(pop: seq<Agent>, agents: seq<nat>, pool: seq<nat>, used: seq<nat>, poolUsed: seq<nat>) {
    && Symmetric(pop)
    && Bookkept(pop, agents, pool) && Bookkept(pop, used, poolUsed) && Disjoint(agents, used)
    && Balanced(agents, pool) && |used| % 2 == 0 && |poolUsed| % 2 == 0
  }

  /** A pairing step of the chosen `a` and `b` keeps the lists arranged. */
  lemma StepArranged(pop: seq<Agent>, pop': seq<Agent>,
                     agents: seq<nat>, pool: seq<nat>, used: seq<nat>, poolUsed: seq<nat>,
                     a: nat, b: nat)
    requires Arranged(pop, agents, pool, used, poolUsed)
    requires a in agents && b in agents && a != b && a < |pop| && b < |pop| && Couple(pop, a, b)
    requires pop[a].partner.None? ==> a in pool && b in pool
    requires Outside(pop, pop', a, b) && Couple(pop', a, b)
    ensures Arranged(pop', Remove(Remove(agents, a), b),
                     if pop[a].partner.None? then Remove(Remove(pool, a), b) else pool,
                     used + [a, b],
                     if pop'[a].partner.None? then poolUsed + [a, b] else poolUsed)
  {
    StepBooks(pop, pop', agents, pool, used, poolUsed, a, b);
    RemoveTwo(agents, a, b);
    if pop[a].partner.None? {
      RemoveTwo(pool, a, b);
    } else {
      assert a !in pool;
    }
    BalancedStep(agents, pool, a, b, pop[a].partner.None?);
    UsedParity(used, poolUsed, a, b, pop'[a].partner.None?);
  }

  /** Appending a pair keeps the used lists even. */
  lemma UsedParity(used: seq<nat>, poolUsed: seq<nat>, a: nat, b: nat, single: bool)
    requires |used| % 2 == 0 && |poolUsed| % 2 == 0
    ensures |used + [a, b]| % 2 == 0
    ensures |if single then poolUsed + [a, b] else poolUsed| % 2 == 0
  {
  }

  /** Taking two agents out of the list, and out of the pool when they are single, keeps
      the parities. */
  lemma BalancedStep(agents: seq<nat>, pool: seq<nat>, a: nat, b: nat, single: bool)
    requires Balanced(agents, pool) && |Remove(Remove(agents, a), b)| == |agents| - 2
    requires single ==> |Remove(Remove(pool, a), b)| == |pool| - 2
    requires !single ==> agents != pool
    ensures Balanced(Remove(Remove(agents, a), b), if single then Remove(Remove(pool, a), b) else pool)
  {
  }

  /** One death in `run`: a victim outside the pool is a partnered agent, and putting it and
      its partner in the pool before its `birth` leaves both single and in the pool; the
      bookkeeping holds after. */
  lemma DeathBooks(pop: seq<Agent>, pop': seq<Agent>, agents: seq<nat>, pool: seq<nat>, v: nat)
    requires Bookkept(pop, agents, pool) && Symmetric(pop) && v in agents
    requires Symmetric(pop')
    requires |pop'| == |pop| && pop'[v].partner.None?
    requires pop[v].partner.Some? ==> pop'[pop[v].partner.value].partner.None?
    requires forall x | 0 <= x < |pop| && x != v && Some(x) != pop[v].partner :: pop'[x] == pop[x]
    ensures var pool' := if v !in pool then pool + [v, pop[v].partner.value] else pool;
            Bookkept(pop', agents, pool')
  {
    var pool' := if v !in pool then pool + [v, pop[v].partner.value] else pool;
    if v !in pool {
      var j := pop[v].partner.value;
      assert pop[j].partner == Some(v);
      AppendTwo(pool, v, j);
    }
    forall x | x in agents && pop'[x].partner.Some?
      ensures pop'[x].partner.value in agents
    {
      var y := pop[x].partner.value;
      assert pop[y].partner == Some(x);
    }
  }

  /** One death of the loop "death & reproduction": the victim `random.choice(agents)` picks
      joins the pool with its partner when it is not there yet, then is reborn from `parent`.
      The list stays kept, the population sound and symmetric, the victim is a newborn in the
      pool, and the pool keeps its parity. */
  function Death(cfg: Config, pop: seq<Agent>, agents: seq<nat>, pool: seq<nat>, parent: nat, d: DeathDraws)
    : (r: (seq<Agent>, seq<nat>))
    requires Bookkept(pop, agents, pool) && Symmetric(pop) && AllSound(pop)
    requires |agents| > 0 && parent < |pop|
    ensures var v := agents[d.victim % |agents|];
            && |r.0| == |pop| && v < |pop| && Bookkept(r.0, agents, r.1) && Symmetric(r.0) && AllSound(r.0)
            && r.0[v] == Newborn(cfg, Some(pop[parent].geno), d.genes)
            && v in r.1 && |r.1| % 2 == |pool| % 2
  {
    var v := agents[d.victim % |agents|];
    assert v in agents;
    var pool' := if v !in pool then pool + [v, pop[v].partner.value] else pool;
    RebornFacts(cfg, pop, v, Some(parent), d.genes);
    var pop' := Reborn(cfg, pop, v, Some(parent), d.genes);
    DeathBooks(pop, pop', agents, pool, v);
    (pop', pool')
  }

  /** The deaths for the parents in order, the `j`-th drawing `d(j)`: each keeps the list kept,
      the population sound and symmetric, and the pool's parity. */
  function Deaths(cfg: Config, pop: seq<Agent>, agents: seq<nat>, pool: seq<nat>, parents: seq<nat>,
                  d: nat -> DeathDraws): (r: (seq<Agent>, seq<nat>))
    requires Bookkept(pop, agents, pool) && Symmetric(pop) && AllSound(pop) && |agents| > 0
    requires forall j | 0 <= j < |parents| :: parents[j] < |pop|
    ensures |r.0| == |pop| && Bookkept(r.0, agents, r.1) && Symmetric(r.0) && AllSound(r.0)
    ensures |r.1| % 2 == |pool| % 2
  {
    if parents == [] then (pop, pool)
    else
      var j := |parents| - 1;
      var prev := Deaths(cfg, pop, agents, pool, parents[..j], d);
      Death(cfg, prev.0, agents, prev.1, parents[j], d(j))
  }

  /** Every member of a kept list, read by position, names an agent of the population. */
  lemma ListedBelow(pop: seq<Agent>, list: seq<nat>, singles: seq<nat>)
    requires Bookkept(pop, list, singles)
    ensures forall j | 0 <= j < |list| :: list[j] < |pop|
  {
    forall j | 0 <= j < |list|
      ensures list[j] < |pop|
    {
      assert list[j] in list;
    }
  }

  /** The lists as `run` sets them up: every agent single, each in `agents` and in `pool`. */
  lemma FreshArranged(pop: seq<Agent>, ids: seq<nat>)
    requires NoDup(ids) && forall x | x in ids :: x < |pop|
    requires forall x | 0 <= x < |pop| :: pop[x].partner.None?
    ensures Arranged(pop, ids, ids, [], [])
  {
  }

  /** The lists after the deaths of an iteration, with `agents_used` and `pool_used` empty and
      an even agent list: kept and symmetric, with a pool of the same parity, they are still
      arranged. */
  lemma DeathsArranged(pop: seq<Agent>, agents: seq<nat>, pool: seq<nat>, pool': seq<nat>)
    requires Balanced(agents, pool) && |agents| % 2 == 0 && |pool'| % 2 == |pool| % 2
    requires Bookkept(pop, agents, pool') && Symmetric(pop)
    ensures Arranged(pop, agents, pool', [], [])
  {
  }

  /** `a` and `b` moving from the list to the used list: together the two lists hold the same
      agents as before. */
  lemma PairMoved(agents: seq<nat>, used: seq<nat>, a: nat, b: nat)
    requires NoDup(agents) && a in agents && b in agents && a != b
    ensures multiset(Remove(Remove(agents, a), b)) + multiset(used + [a, b]) == multiset(agents) + multiset(used)
  {
    RemoveDistinct(agents, a);
    RemoveCount(agents, a);
    RemoveCount(Remove(agents, a), b);
  }

  /** The deaths for one more parent are one more death. */
  lemma DeathsStep(cfg: Config, pop: seq<Agent>, agents: seq<nat>, pool: seq<nat>, parents: seq<nat>,
                   d: nat -> DeathDraws, j: nat)
    requires Bookkept(pop, agents, pool) && Symmetric(pop) && AllSound(pop) && |agents| > 0
    requires forall i | 0 <= i < |parents| :: parents[i] < |pop|
    requires j < |parents|
    ensures var prev := Deaths(cfg, pop, agents, pool, parents[..j], d);
            Deaths(cfg, pop, agents, pool, parents[..j + 1], d) == Death(cfg, prev.0, agents, prev.1, parents[j], d(j))
  {
    assert parents[..j + 1][..j] == parents[..j];
  }
}
