/**
 * The per-sample statistics of `run`: what `count` adds for one agent after an interaction,
 * the counters `pair_interact` adds to, the normalisation of the outcome shares and the
 * unattached fraction recorded at a sample, and the number of sample slots.
 */
module Stats {
  import opened Wrappers
  import opened Game
  import opened Genome

  /** One sample slot of every statistic the source records, in the order it names them. */
  datatype Tally = Tally(
    attach: real, cooper: real, deceit: real, play: real, payoff: real,
    nC: real, pR: real, pT: real, pP: real, pS: real,
    unattached: real, newRelationships: real, playCount: real, playCountSquared: real)

  /** `np.zeros(nsamples)` for every statistic, at one slot. */
  const Empty: Tally := Tally(0.0, 0.0, 0.0, 0.0, 0.0, 0.0, 0.0, 0.0, 0.0, 0.0, 0.0, 0.0, 0.0, 0.0)

  /** `stats["p_" + result]`: the counter of one outcome. */
  function Share(s: Tally, o: Outcome): real {
    match o
    case R => s.pR
    case T => s.pT
    case P => s.pP
    case S => s.pS
  }

  /** `stats[t]`: the sum of the phenotype values of trait `t`. */
  function TraitSum(s: Tally, t: Trait): real {
    match t
    case Attach => s.attach
    case Cooper => s.cooper
    case Deceit => s.deceit
    case Play => s.play
  }

  /** `interacted`: the sum of the four outcome counters. */
  function Interactions(s: Tally): real {
    s.pR + s.pT + s.pP + s.pS
  }

  /** `count`: one more outcome `o` for an agent with phenotype `phen` and payoff `payoff`;
      the cooperation counter moves exactly when the agent cooperated, only the counter of
      `o` among the outcomes moves, and the phenotype and payoff sums grow by the agent's. */
  function Count(s: Tally, o: Outcome, phen: Phenotype, payoff: real): (r: Tally)
    ensures r.nC == s.nC + (if CheckCooperated(o) then 1.0 else 0.0)
    ensures Share(r, o) == Share(s, o) + 1.0
    ensures forall o' | o' != o :: Share(r, o') == Share(s, o')
    ensures Interactions(r) == Interactions(s) + 1.0
    ensures forall t :: TraitSum(r, t) == TraitSum(s, t) + Value(phen, t)
    ensures r.payoff == s.payoff + payoff
    ensures r.unattached == s.unattached && r.newRelationships == s.newRelationships
    ensures r.playCount == s.playCount && r.playCountSquared == s.playCountSquared
  {
    var c := if CheckCooperated(o) then s.nC + 1.0 else s.nC;
    var t := s.(attach := s.attach + phen.attach, cooper := s.cooper + phen.cooper,
                deceit := s.deceit + phen.deceit, play := s.play + phen.play,
                payoff := s.payoff + payoff, nC := c);
    match o
    case R => t.(pR := t.pR + 1.0)
    case T => t.(pT := t.pT + 1.0)
    case P => t.(pP := t.pP + 1.0)
    case S => t.(pS := t.pS + 1.0)
  }

  /** `stats["new_relationships"][sample] += 1`. */
  function NewRelationship(s: Tally): (r: Tally)
    ensures r.newRelationships == s.newRelationships + 1.0
    ensures r == s.(newRelationships := r.newRelationships)
  {
    s.(newRelationships := s.newRelationships + 1.0)
  }

  /** The play counters after a courtship of `rounds` rounds. */
  function PlayCounted(s: Tally, rounds: nat): (r: Tally)
    ensures r.playCount == s.playCount + rounds as real
    ensures r.playCountSquared == s.playCountSquared + (rounds * rounds) as real
    ensures r == s.(playCount := r.playCount, playCountSquared := r.playCountSquared)
  {
    s.(playCount := s.playCount + rounds as real,
       playCountSquared := s.playCountSquared + (rounds * rounds) as real)
  }

  lemma ShareScale(x: real, n: real)
    requires n > 0.0
    ensures (x / n) * n == x
  {
  }

  /** The outcome counters divided by `interacted` when it is positive: afterwards they are
      fractions of the interactions that sum to one and keep their proportions; with no
      interaction the slot is unchanged. Nothing else changes. */
  function Normalize(s: Tally): (r: Tally)
    ensures Interactions(s) > 0.0 ==> Interactions(r) == 1.0
    ensures Interactions(s) > 0.0 ==> forall o :: Share(r, o) * Interactions(s) == Share(s, o)
    ensures Interactions(s) <= 0.0 ==> r == s
    ensures r == s.(pR := r.pR, pT := r.pT, pP := r.pP, pS := r.pS)
  {
    var n := Interactions(s);
    if n > 0.0 then
      var r := s.(pR := s.pR / n, pT := s.pT / n, pP := s.pP / n, pS := s.pS / n);
      assert Interactions(r) * n == Interactions(s);
      ShareScale(s.pR, n);
      ShareScale(s.pT, n);
      ShareScale(s.pP, n);
      ShareScale(s.pS, n);
      r
    else s
  }

  /** `len(pool) / params["population"]`, recorded at a sample. */
  function Unattached(s: Tally, poolSize: nat, population: nat): (r: Tally)
    requires population > 0
    ensures r.unattached * population as real == poolSize as real
    ensures r == s.(unattached := r.unattached)
  {
    s.(unattached := poolSize as real / population as real)
  }

  /** The sample slot of iteration `t`: `int(t / sample_freq)` when `t` is a multiple of the
      sampling frequency, none otherwise. */
  function SampleAt(t: nat, freq: nat): (slot: Option<nat>)
    requires freq > 0
    ensures slot.Some? <==> t % freq == 0
    ensures slot.Some? ==> slot.value * freq == t
  {
    if t % freq == 0 then Some(t / freq) else None
  }

  /** `nsamples = int(params["iterations"] / params["sample_freq"])`, as the source computes it. */
  function SampleCountAsWritten(iterations: nat, freq: nat): nat
    requires freq > 0
  {
    iterations / freq
  }

  /** When the sampling frequency does not divide the number of iterations, the last sampled
      iteration writes one slot past the `nsamples` slots the arrays have. */
  lemma AsWrittenSampleOutOfRange(iterations: nat, freq: nat)
    requires freq > 0 && iterations % freq != 0
    ensures var t := SampleCountAsWritten(iterations, freq) * freq;
            t < iterations && SampleAt(t, freq) == Some(SampleCountAsWritten(iterations, freq))
  {
    var q := iterations / freq;
    assert q * freq + iterations % freq == iterations;
    assert (q * freq) % freq == 0 && (q * freq) / freq == q by {
      MultipleDiv(q, freq);
    }
  }

  lemma MultipleDiv(q: nat, freq: nat)
    requires freq > 0
    ensures (q * freq) % freq == 0 && (q * freq) / freq == q
  {
    DivUnique(q * freq, freq, q, 0);
  }

  /** Euclidean division has one quotient and one remainder. */
  lemma DivUnique(x: int, f: int, q: int, r: int)
    requires f > 0 && 0 <= r < f && x == q * f + r
    ensures x / f == q && x % f == r
  {
    var d := q - x / f;
    assert d * f == x % f - r;
    MulBounds(d, f);
  }

  lemma MulBounds(d: int, f: int)
    requires f > 0
    ensures d >= 1 ==> d * f >= f
    ensures d <= -1 ==> d * f <= -f
  {
  }

  /** The corrected slot count, one per sampled iteration: the ceiling of the quotient. */
  function SampleCount(iterations: nat, freq: nat): nat
    requires freq > 0
  {
    (iterations + freq - 1) / freq
  }

  /** Slot `s` of the corrected count exists exactly when iteration `s * freq` is run, so every
      sampled iteration has a slot and every slot is sampled. */
  lemma SampleSlots(iterations: nat, freq: nat, s: nat)
    requires freq > 0
    ensures s < SampleCount(iterations, freq) <==> s * freq < iterations
  {
    var q := SampleCount(iterations, freq);
    var r := (iterations + freq - 1) % freq;
    assert q * freq + r == iterations + freq - 1;
    if s < q {
      assert s * freq <= (q - 1) * freq by {
        MulMono(s, q - 1, freq);
      }
    } else {
      assert q * freq <= s * freq by {
        MulMono(q, s, freq);
      }
    }
  }

  lemma MulMono(a: nat, b: nat, c: nat)
    requires a <= b
    ensures a * c <= b * c
  {
  }

  /** Every sampled iteration of a run has a slot under the corrected count. */
  lemma SampleInRange(iterations: nat, freq: nat, t: nat)
    requires freq > 0 && t < iterations && SampleAt(t, freq).Some?
    ensures SampleAt(t, freq).value < SampleCount(iterations, freq)
  {
    SampleSlots(iterations, freq, SampleAt(t, freq).value);
  }

  /** When the frequency divides the number of iterations, the two counts agree. */
  lemma SampleCountAgrees(iterations: nat, freq: nat)
    requires freq > 0 && iterations % freq == 0
    ensures SampleCount(iterations, freq) == SampleCountAsWritten(iterations, freq)
  {
    var q := iterations / freq;
    assert iterations == q * freq;
    DivUnique(iterations + freq - 1, freq, q, freq - 1);
  }

  /** The count of a strategy key in the histogram, zero for a key never seen
      (`collections.defaultdict(int)`). */
  function Hits<K(==,!new)>(h: map<K, int>, key: K): int {
    if key in h then h[key] else 0
  }

  /** The histogram after `histo[strategy] += 1` for each key of `keys` in order: each key's
      count grows by the number of times it occurs, and no other key appears. */
  function Tallied<K(==,!new)>(h: map<K, int>, keys: seq<K>): (r: map<K, int>)
    ensures forall key :: key in r <==> key in h || key in keys
    ensures forall key :: Hits(r, key) == Hits(h, key) + multiset(keys)[key]
  {
    if keys == [] then h
    else
      var front := keys[..|keys| - 1];
      var key := keys[|keys| - 1];
      assert keys == front + [key];
      var r := Tallied(h, front);
      r[key := Hits(r, key) + 1]
  }

  /** Counting the next key of a list extends the count of its prefix by that key. */
  lemma TalliedPrefix<K(!new)>(h: map<K, int>, keys: seq<K>, j: nat)
    requires j < |keys|
    ensures Tallied(h, keys[..j + 1]) == Tallied(h, keys[..j])[keys[j] := Hits(Tallied(h, keys[..j]), keys[j]) + 1]
  {
    assert keys[..j + 1][..j] == keys[..j];
  }
}
