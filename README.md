# Emotions and courtship in the iterated Prisoner's Dilemma: a Dafny model of the engine

This project is a model of the simulation engine of `play_model.py`, together with proofs about it.

In the simulation, a population of agents plays rounds of the Prisoner's Dilemma.

- **Agents.** Each agent carries:
  - a genotype: four traits (attach, cooper, deceit, play), each with the six components BASE, VOL, R, T, P and S;
  - a phenotype: one value per trait;
  - a lifetime payoff;
  - a partner.
- **Pairing.** In every iteration, `pair_interact` takes pairs off the agent list until at most one agent is left.
  - A couple plays a round with `interact`.
  - Two single agents first court with up to 20 `play_pretend` rounds. If they stay together, they pair up and play.
- **Updates.** The outcomes move the agents' payoffs and the affect of their phenotypes.
  - Deceit and perceptual noise can change the outcome an agent responds to.
  - An agent may divorce its partner.
- **Regrouping.** After the pairing loop, the lists are regrouped.
- **Generation step.** Agents are drawn as parents by fitness, meaning lifetime payoff shifted so that the least is zero. For each parent:
  - a random agent dies and is reborn as a mutated copy of the parent;
  - the victim's former partner ends its relationship.
- **Samples.** At the sampled iterations, the statistics slot is normalised and the strategy histogram is updated with the `discretize` key of every listed agent.

## How the model is organised

The agents stay values. The arena that updates them in place is a class.

| Module | What it models |
|---|---|
| `Game` | `play`'s outcome table, `check_cooperated`, and the deceit and perceptual-noise remaps |
| `Params` | the configuration the engine reads |
| `Chance` | every random draw as an explicit oracle value, `decide`, and the noise and deceit gates |
| `Genome` | the genotype and phenotype records, `clip`, the components `birth` writes (`_calc_genotype`), the phenotype update of `update_affect`, and the key of `discretize` |
| `Population` | what each `Agent` method and each kind of round does to the agents, as functions on a population; an agent is its position in the population |
| `Lists` | `list.remove` and `choose_and_remove` |
| `Books` | the bookkeeping of the four agent lists, and the deaths of a generation as functions |
| `Selection` | fitness shifting, the number of parents, and `random.choices` as CPython computes it (floor of `random() * n` without weights; `bisect` on the running totals with weights) |
| `Stats` | the statistics slots, `count`, the normalisation at a sample, the number of sample slots, and the histogram |
| `Arena` | class `Arena`: the population, `agents`, `pool`, `agents_used`, `pool_used`, the statistics and the histogram as fields |

In class `Arena`, every `Agent` method and every step of `run`, `pair_interact`, `interact` and `play_pretend` is a method. Each method changes its fields the way the source does. The methods for the `Agent` methods, `interact`, `play_pretend`, the courtship loop, one death, the death loop, the choice of parents, the census and the record of a sample are proved to compute the matching function of `Population`, `Books`, `Selection` or `Stats`. The methods that run a pairing step, a pairing round, a generation or the whole run state less, as "## Left out" lists method by method: the invariant `Valid()`, the list sizes, the number of statistics slots, and which agents they leave unchanged.

`Valid()` is the class invariant of `run`. It holds that:

- every genotype lies within `[min_geno, max_geno]`;
- the partner relation is symmetric and irreflexive;
- each of `agents` and `agents_used` is without repeats, and the two are disjoint;
- each list holds the partner of each of its partnered agents;
- `pool` and `pool_used` are exactly the single agents of those lists;
- the parities hold that keep `choose_and_remove(pool)` from meeting an empty pool.

Each method that changes the lists keeps `Valid()`.

### Behaviour of the code worth noting

The model keeps each of these:

- **No parent in `birth`.** For each component, `birth` draws `normal(initial_trait_value, std_dev_initial_trait_value)` and then passes that value to `_calc_genotype`, which draws a second normal value around it with standard deviation `mutation` and clips that to the genotype bounds (play_model.py:110-114, 122-127).
- **Phenotype update.** `update_affect` first sets `phen = 2·phen + 2·geno[result]`. It then pulls this value towards BASE by `|VOL|` and clips it to `[-1, 1]`, the default bounds of `clip` (play_model.py:161-167).
- **Play prefix.** The key part for the play trait starts with the punishment letter "P" (play_model.py:208).
- **The odd agent out.** When the agent list is odd, the agent left after pairing is in neither `agents_used` nor `pool_used`. It therefore drops out of the lists after the first iteration. The model keeps this: `Play` states that the list loses exactly its odd agent out.
- **Noise settings.** In the configuration, `noisetype`, the field compared with "action" and "percept" (play_model.py:150, 377), holds the float `0.` (config.py:29). The string "percept" sits in `noise`, the probability field (config.py:28). Since `0.` equals neither string, no noise fires under this configuration. `NoiseType.OtherNoise` stands for any `noisetype` value other than the two strings.

## Model

| member | source | states |
|---|---|---|
| Game.Outcomes | play_model.py:382-395 | each player's outcome records its own cooperation bit and its partner's |
| Game.OutcomesTable | play_model.py:382-395 | the four rows of the outcome table, each as an if-and-only-if |
| Game.OutcomeDetermined | play_model.py:409-413 | an outcome is fixed by whether its player cooperated and whether its partner did |
| Game.CheckCooperated | play_model.py:409-413 | by the contract of `Outcomes`, `check_cooperated` of a player's outcome is exactly the cooperation bit that player played; with `OutcomeDetermined`, that bit and the partner's fix the outcome |
| Game.OutcomesSwap | play_model.py:374-395 | swapping the players swaps the outcome pair |
| Game.DeceitRemap | play_model.py:145-148 | deceit keeps the player's own action, makes the partner look like a cooperator, and leaves R and T alone |
| Game.PerceptRemap | play_model.py:153-160 | perceptual noise keeps the player's own action and flips the partner's perceived action |
| Game.PerceptInvolution | play_model.py:153-160 | perceptual noise applied twice gives back the outcome |
| Chance.Decide | play_model.py:182-188 | piece-wise, `decide` is true from a phenotype of 0.5 up and false from -0.5 down; a `sigmoid` setting other than the two returns `None`, which reads as false |
| Chance.PieceWiseGate | play_model.py:182-186 | the piece-wise `decide` is certain from 0.5 up, impossible from -0.5 down, and monotone in the phenotype |
| Chance.Cooperates | play_model.py:375-381 | a cooperation bit differs from the decision exactly when action noise fires |
| Chance.PlayOutcomes | play_model.py:374-395 | each player's outcome records its own cooperation bit after action noise, and each player's partner bit is the other player's own bit |
| Chance.PlaySwap | play_model.py:374-395 | `play` with the agents and their draws exchanged gives the swapped outcome pair |
| Chance.PlayWithoutNoise | play_model.py:374-395 | without action noise, `play` is the table entry of the two decisions |
| Chance.Deceived | play_model.py:139-143 | deceit needs `allowdeceit` and an S or P outcome, and then happens exactly when the other agent decides to deceive |
| Chance.Perceived | play_model.py:139-160 | the agent perceives its own action correctly, and its partner as a cooperator exactly when one of deceit and noise, but not both, says so |
| Chance.PerceivedCases | play_model.py:139-148 | without noise: no deceit leaves the outcome, deceit turns S into R and P into T |
| Genome.Clip | play_model.py:48-53 | the result lies in the bounds, is the value itself inside them, and is the upper bound above them |
| Genome.ClipBelow | play_model.py:51-52 | a value below the lower bound is clipped to the lower bound |
| Genome.ClipCloser | play_model.py:48-53 | clipping never moves a value away from a point of the interval |
| Genome.SetGene | play_model.py:111-116 | writing one component changes that component and no other |
| Genome.SetValue | play_model.py:117 | writing one trait of the phenotype changes that trait and no other |
| Genome.Bred | play_model.py:110-127 | every component `birth` writes lies in `[min_geno, max_geno]` |
| Genome.BredRule | play_model.py:108-116 | a trait's written rule holds the bred value at each of its keys |
| Genome.Offspring | play_model.py:105-127 | the genotype `birth` writes has each component bred, so it lies within the genotype bounds |
| Genome.BredAll | play_model.py:108-117 | a genotype whose every component is bred is the offspring |
| Genome.Heredity | play_model.py:116-127 | without mutation, a child of a parent within bounds is an exact copy of the parent |
| Genome.MutationStep | play_model.py:122-127 | each component of a child moves from the parent's value by at most the size of its mutation step |
| Genome.BasePhen | play_model.py:132-135 | every trait of the reset phenotype is its BASE |
| Genome.Reappraise | play_model.py:161-167 | the emotional update of a trait lies in `[-1, 1]` |
| Genome.Homeostasis | play_model.py:161-167 | the update lands at most `1 - abs(VOL)` times as far from BASE as the raw value was, and with `abs(VOL) = 1` it is BASE exactly |
| Genome.Affect | play_model.py:161-170 | with emotions every trait lies in `[-1, 1]`; without them each trait is the response to the perceived outcome |
| Genome.Trunc | play_model.py:193-195 | `int()` truncates towards zero |
| Genome.Buckets | play_model.py:192-204 | the bin table has four rows of six bins |
| Genome.BucketsInRange | play_model.py:192-204 | for a genotype within a symmetric range, every bin, VOL included, lies in `0..discrete_buckets` |
| Genome.NatToString | play_model.py:218-221 | `str` of a digit is that one character |
| Genome.KeyLayout | play_model.py:205-222 | a table of single-digit bins has a 28-character key, with each trait's prefix at 7·t and the digit of bin c at 7·t+1+c |
| Genome.Discretize | play_model.py:190-222 | the key of the bin table; `DiscretizeLayout` states its 28-character layout for genotypes within bounds, and `DiscretizeSeparates` that equal keys mean equal bins |
| Genome.DiscretizeLayout | play_model.py:190-222 | with at most 9 buckets, a genotype within bounds has a 28-character key laid out as above |
| Genome.KeySeparates | play_model.py:205-222 | distinct single-digit bin tables give distinct keys |
| Genome.DiscretizeSeparates | play_model.py:190-222 | genotypes with the same key fall in the same bins |
| Population.Ended | play_model.py:132-135 | `end_relationship` clears the partner, sets every trait to BASE, and keeps genotype and payoff |
| Population.Newborn | play_model.py:105-120 | a newborn is sound, has zero payoff and no partner, its genotype is bred, and its phenotype is at BASE |
| Population.Replaced | play_model.py:118-120 | replacing an agent keeps the population size |
| Population.ReplacedFacts | play_model.py:105-120 | the former partner ends its relationship, no one else changes, and soundness and partner symmetry are kept |
| Population.Reborn | play_model.py:105-120 | `birth` of one agent as a function of the population; `RebornFacts` states the newborn, the former partner's end of relationship and that no one else changes |
| Population.RebornFacts | play_model.py:105-120 | after `birth` the agent is the newborn of its parent's genotype, its former partner ends its relationship, no one else changes, and symmetry is kept |
| Population.CoupleKeepsSymmetry | play_model.py:353-354 | changing only a couple or two single agents, leaving them a couple or both single, keeps the partner relation symmetric |
| Population.Affected | play_model.py:137-170 | `update_affect` as the new `self` and the new `other`; `AffectedFacts` states what changes |
| Population.AffectedFacts | play_model.py:137-170 | `update_affect` changes only `self`'s phenotype and the other's payoff; that payoff drops by `deceitcost` exactly when the other deceives; the phenotype bounds hold with and without emotions |
| Population.Related | play_model.py:172-180 | `update_relationship` as the new `self` and the new partner; `RelatedCouple`, `RelatedSingle` and `RelatedDivorce` state the couple, single and divorce cases |
| Population.RelatedCouple | play_model.py:172-180 | `update_relationship` leaves a couple a couple or both single, and changes no genotype |
| Population.RelatedSingle | play_model.py:172-174 | a single agent only earns the payoff of its outcome |
| Population.RelatedDivorce | play_model.py:172-180 | a divorce charges both agents `divorcecost` and leaves both single at BASE; otherwise the couple stays together with the payoff earned |
| Population.Divorced | play_model.py:176-180 | the divorce leaves both agents single, each charged `divorcecost`, with their genotypes and every trait back at BASE |
| Population.Pretended | play_model.py:397-407 | `play_pretend` keeps both genotypes; a `True` return keeps the partners, a `False` return leaves both single |
| Population.PretendedAttach | play_model.py:397-407 | `play_pretend` returns `True` exactly when both agents decide to stay attached on the phenotypes left by `b`'s and then `a`'s affect update; then both leave as updated; on `False` both are single with the updated payoffs and every trait back at BASE |
| Population.PretendedFacts | play_model.py:397-402 | a pretend round costs each agent `playcost`, plus `deceitcost` when it deceived; without deceit, exactly `playcost` |
| Population.Interacted | play_model.py:366-369 | the outcomes of `interact` are those of its round of play; what the agents become is stated by `InteractedCouple` and `InteractedPayoffs` |
| Population.InteractedPayoffs | play_model.py:366-369 | a couple's interaction gives each agent its old payoff plus `params[result]` of its own outcome (play_model.py:173), less `deceitcost` if the partner's deceit was charged to it (:144), less `divorcecost` for both when they split (:177-179), after which both are at BASE; no deceit is charged when both cooperate; without deceit and divorce each gains exactly its payoff and the couple stays together |
| Population.InteractedCouple | play_model.py:366-369 | an interaction leaves a couple a couple or both single with their genotypes, and two single agents each only earn their payoff |
| Population.Courted | play_model.py:338-348 | the courtship loop from a given round on; `CourtedFacts` states its bounds and what it keeps |
| Population.CourtedFacts | play_model.py:340-348 | the courtship loop runs at most 20 rounds, keeps the genotypes, keeps single agents single, and ends together only if the pair began together |
| Population.Courtship | play_model.py:338-348 | a courtship runs at most 20 rounds; without `allowplay` it runs none and the pair stays together |
| Population.Coupled | play_model.py:353-354 | `a.partner = b; b.partner = a` makes them mates and keeps their genotypes, phenotypes and payoffs |
| Population.Stepped | play_model.py:332-358 | a pairing step leaves the chosen pair a couple or both single, with their genotypes |
| Lists.Remove | play_model.py:425 | `list.remove` shortens the list by one exactly when the element is present (every caller passes a present element; Python would raise `ValueError` otherwise) |
| Lists.RemoveCount | play_model.py:423-426 | removing a present element takes out exactly one copy of it |
| Lists.RemoveDistinct | play_model.py:423-426 | in a list without repeats, removal leaves exactly the other elements, still without repeats |
| Lists.RemoveFirst | play_model.py:425 | the scan of `list.remove` computes `Remove` |
| Lists.ChooseAndRemove | play_model.py:423-426 | the element at the drawn index is returned and exactly one copy of it leaves the list |
| Books.PoolHasPartner | play_model.py:336-337 | under the parity invariant, the pool still holds an agent after a single `a` leaves it, so `choose_and_remove(pool)` never meets an empty pool |
| Books.Chosen | play_model.py:332-337 | the chosen `a` and `b` are two distinct listed agents, a couple or both single, and both in the pool when single |
| Books.StepBooks | play_model.py:359-364 | a pairing step keeps both lists kept and disjoint, and the partner relation symmetric |
| Books.StepArranged | play_model.py:329-364 | a pairing step keeps the whole list invariant, parities included |
| Books.PairMoved | play_model.py:359-361 | two agents move from `agents` to `agents_used`, and together the two lists hold the same agents |
| Books.DeathBooks | play_model.py:286-290 | a victim outside the pool joins it with its partner, and the bookkeeping survives its `birth` |
| Books.Death | play_model.py:286-290 | one death keeps the list kept, the population sound and symmetric, and the pool parity; the victim is a newborn of the parent and is in the pool |
| Books.Deaths | play_model.py:285-290 | the deaths of a generation keep the list kept, the population sound and symmetric, the population size, and the pool parity |
| Books.FreshArranged | play_model.py:247-250 | the lists as `run` sets them up satisfy the list invariant |
| Books.DeathsArranged | play_model.py:264-290 | after the deaths, with empty used lists and an even agent list, the list invariant holds again |
| Selection.Min | play_model.py:272 | `min` is a member of the list and at most every element |
| Selection.Shifted | play_model.py:272-273 | shifted fitness is non-negative, contains zero, and is each value minus the minimum |
| Selection.SumZero | play_model.py:274 | a sum of non-negative values is non-negative, and zero exactly when every value is |
| Selection.ShiftedSumZero | play_model.py:272-283 | shifted fitness sums to zero exactly when all payoffs are equal, the case of uniform sampling |
| Selection.Cumulative | play_model.py:275-279 | the running totals add one weight at a time and end at the sum |
| Selection.CumulativeSorted | play_model.py:275-279 | running totals of non-negative weights never decrease |
| Selection.BisectRight | play_model.py:275-279 | `bisect_right` returns the split point of a sorted slice |
| Selection.WeightedPick | play_model.py:275-279 | a weighted draw lands in the interval of the running totals holding `random() * total` |
| Selection.UniformPick | play_model.py:281-283 | an unweighted draw is an index of the list |
| Selection.Draw | play_model.py:274-283 | a draw is an index of the list, and with a positive total it never picks a weight of zero |
| Selection.ParentCount | play_model.py:278 | the parent count is the truncation of `deaths * population` |
| Selection.ParentIndices | play_model.py:274-283 | `k` draws, all indices of the list, none of weight zero while the total is positive |
| Selection.ParentsAboveMinimum | play_model.py:272-279 | unless all payoffs are equal, a least-fit agent is never drawn as a parent |
| Selection.Select | play_model.py:275-283 | the agents at the drawn positions |
| Selection.Parents | play_model.py:272-283 | `k` parents, all drawn from the agent list |
| Stats.Count | play_model.py:415-421 | `count` adds one to the cooperation counter exactly when the agent cooperated; among the outcome counters it moves only that of the outcome, by one; the phenotype and payoff sums grow by the agent's values |
| Stats.NewRelationship | play_model.py:334-335 | one more new relationship, nothing else changes |
| Stats.PlayCounted | play_model.py:349-351 | the play counters grow by `counter` and `counter²`, nothing else changes |
| Stats.Normalize | play_model.py:304-317 | with interactions, the outcome counters become fractions of them that sum to one; otherwise the slot is unchanged; nothing else changes |
| Stats.Unattached | play_model.py:318 | the unattached share times the population is the pool size |
| Stats.SampleAt | play_model.py:256-259 | an iteration is sampled exactly at multiples of `sample_freq`, into slot `t / sample_freq` |
| Stats.SampleCountAsWritten | play_model.py:228 | the source's `int(iterations / sample_freq)`; `AsWrittenSampleOutOfRange` shows that a sampled iteration overruns it when `sample_freq` does not divide `iterations` |
| Stats.AsWrittenSampleOutOfRange | play_model.py:228 | with the source's `nsamples`, when `sample_freq` does not divide `iterations`, a sampled iteration writes one slot past the arrays |
| Stats.SampleCount | play_model.py:228 | the corrected ceiling count; `SampleSlots` shows a slot exists exactly for each sampled iteration, and `SampleCountAgrees` that it equals the source's count when `sample_freq` divides `iterations` |
| Stats.SampleSlots | play_model.py:255-259 | under the corrected count, slot `s` exists exactly when iteration `s·sample_freq` is run |
| Stats.SampleInRange | play_model.py:255-259 | every sampled iteration has a slot under the corrected count |
| Stats.SampleCountAgrees | play_model.py:228 | when `sample_freq` divides `iterations`, the corrected count is the source's |
| Stats.Tallied | play_model.py:294-296 | each key's count grows by the number of times it occurs, and no other key appears (`defaultdict(int)`) |
| Stats.TalliedPrefix | play_model.py:294-296 | counting one more key extends the count of the prefix by that key |
| Arena.Ids | play_model.py:247-250 | the ids of the initial population are `0 .. population-1` in order |
| Arena.IdsFresh | play_model.py:247-250 | the initial ids are distinct and name agents |
| Arena.Arena.constructor | play_model.py:242-254 | the set-up of `run`: each agent is born without a parent from its own draws, all are in `agents` and `pool`, the used lists are empty, a zero slot exists per sample, the histogram is empty, and the invariant holds |
| Arena.Arena.Found | play_model.py:247-250 | one more agent of the set-up is born without a parent from its own draws and joins `agents` and `pool` |
| Arena.Arena.NewAgent | play_model.py:58-103 | `Agent()` appends a blank agent and gives it its first `birth`, which makes it a newborn |
| Arena.Arena.EndRelationship | play_model.py:132-135 | the trait loop of `end_relationship` computes `Ended` |
| Arena.Arena.Birth | play_model.py:105-120 | `birth` in place computes `Reborn` |
| Arena.Arena.Breed | play_model.py:107-117 | the nested trait and component loops of `birth` compute the offspring genotype and the phenotype at BASE, whatever the agent held before |
| Arena.Arena.UpdateAffect | play_model.py:137-170 | `update_affect` in place changes only the two agents, as `Affected` says |
| Arena.Arena.UpdateRelationship | play_model.py:172-180 | `update_relationship` in place: a single agent only earns its payoff; a partnered one and its partner change as `Related` says, no one else |
| Arena.Arena.Divorce | play_model.py:176-180 | the divorce in place computes `Divorced` |
| Arena.Arena.PlayPretend | play_model.py:397-407 | `play_pretend` in place computes `Pretended`, the return value included |
| Arena.Arena.Interact | play_model.py:366-372 | `interact` in place computes `Interacted` (whose payoffs for a couple `InteractedPayoffs` states), and at a sample adds `count` for `a` and then `b` with their updated state |
| Arena.Arena.Court | play_model.py:340-348 | the courtship `while` loop computes `Courted` from round 0 |
| Arena.Arena.PretendRound | play_model.py:347-348 | one loop round moves the loop to the next round with the same final state |
| Arena.Arena.Meet | play_model.py:333-355 | the branch for two single agents computes `Stepped` |
| Arena.Arena.Bond | play_model.py:352-355 | pairing then interacting computes `Interacted` of the coupled agents |
| Arena.Arena.Pick | play_model.py:332-337 | the choices of `pair_interact` are `Chosen`, with `a` out of `agents` and both out of the pool when single |
| Arena.Arena.Engage | play_model.py:333-358 | a couple interacts and single agents meet, as `Stepped` says |
| Arena.Arena.Retire | play_model.py:359-364 | `b` leaves `agents`, both join `agents_used`, and both join `pool_used` exactly when `a` ends single |
| Arena.Arena.PairInteract | play_model.py:329-364 | one `pair_interact`: the chosen pair, its new state, and its list moves are exactly as stated; nothing else changes; the invariant is kept |
| Arena.Arena.PairStep | play_model.py:260-263 | a pairing step returns the pair `Chosen` picks, gives it its `Stepped` state and changes no one else, moves it from `agents` to `agents_used` (and between the pools when single) as `pair_interact` does, keeps every genotype, and keeps the invariant |
| Arena.Arena.PairingRound | play_model.py:260-263 | the pairing loop leaves at most the odd agent out, a single agent; the two lists keep the same agents between them; genotypes are unchanged |
| Arena.Arena.Regroup | play_model.py:264-267 | the lists become copies of the used lists, which are cleared, and the invariant holds with an even list |
| Arena.Arena.Play | play_model.py:260-267 | an iteration's play leaves the agent list without only its odd agent out, even and with the invariant |
| Arena.Arena.Fitness | play_model.py:268-271 | the fitness list is the payoff of each listed agent, in list order |
| Arena.Arena.ChooseParents | play_model.py:268-284 | the parents are `Parents` of the listed payoffs, `int(deaths * population)` of them, all from the list |
| Arena.Arena.Die | play_model.py:286-290 | one death in place computes `Death` |
| Arena.Arena.Reproduce | play_model.py:285-290 | the death loop computes `Deaths`; the agent list is not touched, so its length is unchanged |
| Arena.Arena.Cull | play_model.py:285-290 | the deaths compute `Deaths` and restore the invariant |
| Arena.Arena.Evolve | play_model.py:268-290 | the generation step keeps the invariant and the population size |
| Arena.Arena.Census | play_model.py:294-296 | the histogram loop computes `Tallied` of the listed agents' keys |
| Arena.Arena.RecordSample | play_model.py:292-318 | a sample adds the listed agents' strategies to the histogram, and normalises and records the unattached share in its slot |
| Arena.Arena.Iterate | play_model.py:255-318 | an iteration keeps the invariant and the population size, and the list loses only its odd agent out |
| Arena.Arena.Run | play_model.py:255-318 | the iterations of `run` keep the invariant and the population size |

## Left out

- Randomness: each draw of `random.random`, `random.uniform`, `np.random.normal`, `random.choice` and `random.choices` is an oracle parameter (a value in `[0, 1)`, an index, or a standard-normal value). No distribution is modelled.
- `_sigmoid` and the smooth `decide`: `np.exp` is transcendental, so the smooth curve is the configuration field `logistic`.
- Floating point: all arithmetic is on Dafny's exact `real`.
- Printing and logging: the top-N `print`, the `snap_histo` it prints, and `logging.info`.
- Sorting of the histogram modes and `histo_stats` (play_model.py:320-326): the model's histogram is a map, so it has no insertion order for the stable sort to break ties with.
- `run_replicas`: the replica loop and the averaging of the statistics are not modelled. config.py is not part of this model, and neither is run_play.py.
- Agent identity: an agent is its position in the population, and a partner is the partner's position. `Arena.Arena.Die` covers the victim being its own parent: every component is read before it is written, so the result is the same.
- Strings: the values of `params` that the source compares with strings are datatypes, with one constructor for every other value.
- Statistics counts: the histogram counts are `int`, the type of Python's `defaultdict(int)`.
- Arena.Arena.Run: requires at least two agents when there is an iteration, and a positive population. With fewer agents the source fails in `min` of an empty fitness list.
- Arena.Arena.Meet: states the statistics only as keeping their slot count, and as unchanged when the iteration is not sampled.
- Arena.Arena.Bond: states the statistics only as keeping their slot count, and as unchanged when the iteration is not sampled.
- Arena.Arena.Engage: states the statistics only as keeping their slot count, and as unchanged when the iteration is not sampled.
- Arena.Arena.PairInteract: states the statistics only as keeping their slot count, and as unchanged when the iteration is not sampled.
- Arena.Arena.PairStep: states the statistics only as keeping their slot count.
- Arena.Arena.PairingRound: states the statistics only as keeping their slot count, and the new states of the agents only as keeping their genotypes.
- Arena.Arena.Play: states the agents' new states only through the invariant and the list sizes.
- Arena.Arena.Evolve: states only the invariant and the population size. The new population is stated by `Arena.Arena.ChooseParents` and `Arena.Arena.Cull`, which it calls in turn.
- Arena.Arena.Iterate: states only the invariant and the sizes.
- Arena.Arena.Run: states only the invariant and the sizes.

## Findings

| source | as written | input that shows it | evidently intended | confidence | as-written member | corrected member |
|---|---|---|---|---|---|---|
| play_model.py:228 | `nsamples = int(iterations / sample_freq)` slots are allocated, but every iteration `t` with `t % sample_freq == 0` writes slot `t / sample_freq` (play_model.py:256-259) | `iterations = 5`, `sample_freq = 2`: two slots, but iteration 4 writes slot 2 | one slot per sampled iteration, the ceiling of `iterations / sample_freq` | not executed | Stats.AsWrittenSampleOutOfRange | Stats.SampleInRange |

In the model, `Stats.SampleCountAsWritten` is the source's count and `Stats.SampleCount` is the corrected count. The arena allocates its slots with the corrected count.
