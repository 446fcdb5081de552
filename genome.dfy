/**
 * An agent's genotype and phenotype: the genotype dictionary (traits attach, cooper, deceit,
 * play; per trait the components BASE, VOL, R, T, P, S, in the order the source's
 * dictionaries list them) as records with one field per key, `clip`, the values `birth`
 * writes, the phenotype update of `update_affect`, and the strategy key of `discretize`.
 */
module Genome {
  import opened Wrappers
  import opened Game
  import opened Params

  /** The `Agent` constructor's defaults, which every agent of a run uses. */
  const MinGeno: real := -1.0
  const MaxGeno: real := 1.0
  const DiscreteBuckets: nat := 4

  datatype Trait = Attach | Cooper | Deceit | Play

  /** The traits in the order of the genotype dictionary, which the loops over `self.geno`
      follow. */
  const Traits: seq<Trait> := [Attach, Cooper, Deceit, Play]

  /** A key of a trait's genotype: BASE, VOL, or the response to an outcome. */
  datatype Part = Base | Vol | On(o: Outcome)

  /** The keys of a trait's genotype, in the order the dictionaries list them. */
  const Parts: seq<Part> := [Base, Vol, On(R), On(T), On(P), On(S)]

  /** The position of a trait in `Traits`. */
  function TraitIndex(t: Trait): (k: nat)
    ensures k < |Traits| && Traits[k] == t
  {
    match t
    case Attach => 0
    case Cooper => 1
    case Deceit => 2
    case Play => 3
  }

  /** The position of a key in `Parts`. */
  function PartIndex(p: Part): (k: nat)
    ensures k < |Parts| && Parts[k] == p
  {
    match p
    case Base => 0
    case Vol => 1
    case On(o) =>
      match o
      case R => 2
      case T => 3
      case P => 4
      case S => 5
  }

  lemma TraitsDistinct()
    ensures forall u, v | 0 <= u < v < |Traits| :: Traits[u] != Traits[v]
  {
  }

  lemma PartsDistinct()
    ensures forall u, v | 0 <= u < v < |Parts| :: Parts[u] != Parts[v]
  {
  }

  /** The genotype of one trait. */
  datatype Rule = Rule(base: real, vol: real, onR: real, onT: real, onP: real, onS: real)

  /** `self.geno`. */
  datatype Genotype = Genotype(attach: Rule, cooper: Rule, deceit: Rule, play: Rule)

  /** `self.phen`. */
  datatype Phenotype = Phenotype(attach: real, cooper: real, deceit: real, play: real)

  function RuleOf(g: Genotype, t: Trait): Rule {
    match t
    case Attach => g.attach
    case Cooper => g.cooper
    case Deceit => g.deceit
    case Play => g.play
  }

  function Component(r: Rule, p: Part): real {
    match p
    case Base => r.base
    case Vol => r.vol
    case On(o) =>
      match o
      case R => r.onR
      case T => r.onT
      case P => r.onP
      case S => r.onS
  }

  /** `geno[t][p]`. */
  function Gene(g: Genotype, t: Trait, p: Part): real {
    Component(RuleOf(g, t), p)
  }

  /** `phen[t]`. */
  function Value(ph: Phenotype, t: Trait): real {
    match t
    case Attach => ph.attach
    case Cooper => ph.cooper
    case Deceit => ph.deceit
    case Play => ph.play
  }

  function SetComponent(r: Rule, p: Part, v: real): Rule {
    match p
    case Base => r.(base := v)
    case Vol => r.(vol := v)
    case On(o) =>
      match o
      case R => r.(onR := v)
      case T => r.(onT := v)
      case P => r.(onP := v)
      case S => r.(onS := v)
  }

  function SetRule(g: Genotype, t: Trait, r: Rule): Genotype {
    match t
    case Attach => g.(attach := r)
    case Cooper => g.(cooper := r)
    case Deceit => g.(deceit := r)
    case Play => g.(play := r)
  }

  /** `geno[t][p] = v`: that component becomes `v` and no other changes. */
  function SetGene(g: Genotype, t: Trait, p: Part, v: real): (r: Genotype)
    ensures Gene(r, t, p) == v
    ensures forall t', p' | t' != t || p' != p :: Gene(r, t', p') == Gene(g, t', p')
  {
    SetRule(g, t, SetComponent(RuleOf(g, t), p, v))
  }

  /** `phen[t] = v`: that trait becomes `v` and no other changes. */
  function SetValue(ph: Phenotype, t: Trait, v: real): (r: Phenotype)
    ensures Value(r, t) == v
    ensures forall t' | t' != t :: Value(r, t') == Value(ph, t')
  {
    match t
    case Attach => ph.(attach := v)
    case Cooper => ph.(cooper := v)
    case Deceit => ph.(deceit := v)
    case Play => ph.(play := v)
  }

  /** Rules that agree on every key are equal. */
  lemma RuleExt(r1: Rule, r2: Rule)
    requires forall p :: Component(r1, p) == Component(r2, p)
    ensures r1 == r2
  {
    assert Component(r1, Base) == Component(r2, Base);
    assert Component(r1, Vol) == Component(r2, Vol);
    assert Component(r1, On(R)) == Component(r2, On(R));
    assert Component(r1, On(T)) == Component(r2, On(T));
    assert Component(r1, On(P)) == Component(r2, On(P));
    assert Component(r1, On(S)) == Component(r2, On(S));
  }

  /** Genotypes that agree on every component are equal. */
  lemma GenotypeExt(g1: Genotype, g2: Genotype)
    requires forall t, p :: Gene(g1, t, p) == Gene(g2, t, p)
    ensures g1 == g2
  {
    forall t
      ensures RuleOf(g1, t) == RuleOf(g2, t)
    {
      forall p
        ensures Component(RuleOf(g1, t), p) == Component(RuleOf(g2, t), p)
      {
        assert Gene(g1, t, p) == Gene(g2, t, p);
      }
      RuleExt(RuleOf(g1, t), RuleOf(g2, t));
    }
    assert RuleOf(g1, Attach) == RuleOf(g2, Attach) && RuleOf(g1, Cooper) == RuleOf(g2, Cooper);
    assert RuleOf(g1, Deceit) == RuleOf(g2, Deceit) && RuleOf(g1, Play) == RuleOf(g2, Play);
  }

  /** Phenotypes that agree on every trait are equal. */
  lemma PhenotypeExt(ph1: Phenotype, ph2: Phenotype)
    requires forall t :: Value(ph1, t) == Value(ph2, t)
    ensures ph1 == ph2
  {
    assert Value(ph1, Attach) == Value(ph2, Attach) && Value(ph1, Cooper) == Value(ph2, Cooper);
    assert Value(ph1, Deceit) == Value(ph2, Deceit) && Value(ph1, Play) == Value(ph2, Play);
  }

  /** Every component lies within `[lo, hi]`. */
  ghost predicate Bounded(g: Genotype, lo: real, hi: real) {
    forall t, p :: lo <= Gene(g, t, p) <= hi
  }

  function Abs(x: real): real {
    if x < 0.0 then -x else x
  }

  /** `clip`: the value itself when it lies within `[lo, hi]`, otherwise the bound it passed. */
  function Clip(x: real, lo: real, hi: real): (r: real)
    ensures lo <= hi ==> lo <= r <= hi
    ensures lo <= x <= hi ==> r == x
    ensures x > hi ==> r == hi
  {
    if x > hi then hi
    else if x < lo then lo
    else x
  }

  /** A value below the lower bound of an interval is clipped to that bound. */
  lemma ClipBelow(x: real, lo: real, hi: real)
    requires x < lo <= hi
    ensures Clip(x, lo, hi) == lo
  {
  }

  /** Clipping to an interval never moves a value away from a point of that interval. */
  lemma ClipCloser(x: real, y: real, lo: real, hi: real)
    requires lo <= y <= hi
    ensures Abs(Clip(x, lo, hi) - y) <= Abs(x - y)
  {
  }

  /** The standard-normal values `birth` draws, one pair per component: `spread` for the
      initial population's `normal(initial_trait_value, std_dev_initial_trait_value)`, `mutate`
      for the `normal(centre, mutation)` of `_calc_genotype`. */
  datatype GeneDraws = GeneDraws(spread: (Trait, Part) -> real, mutate: (Trait, Part) -> real)

  /** The component `birth` writes at trait `t`, key `p`: `_calc_genotype` of the parent's
      component, or of a draw around `initial_trait_value` when there is no parent. */
  function Bred(cfg: Config, parent: Option<Genotype>, d: GeneDraws, t: Trait, p: Part): (r: real)
    ensures MinGeno <= r <= MaxGeno
  {
    var centre := if parent.Some? then Gene(parent.value, t, p)
                  else cfg.initialTraitValue + cfg.stdDevInitialTraitValue * d.spread(t, p);
    Clip(centre + cfg.mutation * d.mutate(t, p), MinGeno, MaxGeno)
  }

  function BredRule(cfg: Config, parent: Option<Genotype>, d: GeneDraws, t: Trait): (r: Rule)
    ensures forall p :: Component(r, p) == Bred(cfg, parent, d, t, p)
  {
    Rule(Bred(cfg, parent, d, t, Base), Bred(cfg, parent, d, t, Vol),
         Bred(cfg, parent, d, t, On(R)), Bred(cfg, parent, d, t, On(T)),
         Bred(cfg, parent, d, t, On(P)), Bred(cfg, parent, d, t, On(S)))
  }

  /** The whole genotype `birth` writes: every component bred, so within the genotype bounds. */
  function Offspring(cfg: Config, parent: Option<Genotype>, d: GeneDraws): (g: Genotype)
    ensures forall t :: RuleOf(g, t) == BredRule(cfg, parent, d, t)
    ensures forall t, p :: Gene(g, t, p) == Bred(cfg, parent, d, t, p)
    ensures Bounded(g, MinGeno, MaxGeno)
  {
    Genotype(BredRule(cfg, parent, d, Attach), BredRule(cfg, parent, d, Cooper),
             BredRule(cfg, parent, d, Deceit), BredRule(cfg, parent, d, Play))
  }

  /** The loop state of `birth` at trait position `k`, key position `c`: every component of
      the traits before `k`, and the first `c` keys of trait `k`, are bred. */
  ghost predicate BredUpTo(cfg: Config, parent: Option<Genotype>, d: GeneDraws, g: Genotype, k: nat, c: nat) {
    forall u, j | 0 <= u < |Traits| && 0 <= j < |Parts| && (u < k || (u == k && j < c)) ::
      Gene(g, Traits[u], Parts[j]) == Bred(cfg, parent, d, Traits[u], Parts[j])
  }

  /** A genotype with every component bred is the offspring. */
  lemma BredAll(cfg: Config, parent: Option<Genotype>, d: GeneDraws, g: Genotype)
    requires BredUpTo(cfg, parent, d, g, |Traits|, 0)
    ensures g == Offspring(cfg, parent, d)
  {
    forall t, p
      ensures Gene(g, t, p) == Gene(Offspring(cfg, parent, d), t, p)
    {
      assert Traits[TraitIndex(t)] == t && Parts[PartIndex(p)] == p;
    }
    GenotypeExt(g, Offspring(cfg, parent, d));
  }

  /** Without mutation, a child of a parent whose genotype lies within the genotype bounds is
      an exact copy of it. */
  lemma Heredity(cfg: Config, parent: Genotype, d: GeneDraws)
    requires Bounded(parent, MinGeno, MaxGeno)
    requires cfg.mutation == 0.0
    ensures Offspring(cfg, Some(parent), d) == parent
  {
    var g := Offspring(cfg, Some(parent), d);
    forall t, p
      ensures Gene(g, t, p) == Gene(parent, t, p)
    {
      assert Gene(g, t, p) == Bred(cfg, Some(parent), d, t, p);
    }
    GenotypeExt(g, parent);
  }

  /** Each component of a child moves away from the parent's by at most the size of its
      mutation step. */
  lemma MutationStep(cfg: Config, parent: Genotype, d: GeneDraws, t: Trait, p: Part)
    requires Bounded(parent, MinGeno, MaxGeno)
    ensures Abs(Gene(Offspring(cfg, Some(parent), d), t, p) - Gene(parent, t, p))
            <= Abs(cfg.mutation * d.mutate(t, p))
  {
    BredStep(cfg, parent, d, t, p);
  }

  lemma BredStep(cfg: Config, parent: Genotype, d: GeneDraws, t: Trait, p: Part)
    requires MinGeno <= Gene(parent, t, p) <= MaxGeno
    ensures Abs(Bred(cfg, Some(parent), d, t, p) - Gene(parent, t, p)) <= Abs(cfg.mutation * d.mutate(t, p))
  {
    ClipStep(Gene(parent, t, p), cfg.mutation * d.mutate(t, p));
  }

  /** A step of size |m| from a point of the genotype range, clipped, moves at most |m|. */
  lemma ClipStep(y: real, m: real)
    requires MinGeno <= y <= MaxGeno
    ensures Abs(Clip(y + m, MinGeno, MaxGeno) - y) <= Abs(m)
  {
    ClipCloser(y + m, y, MinGeno, MaxGeno);
  }

  /** The phenotype `birth` and `end_relationship` reset to: every trait at its BASE. */
  function BasePhen(g: Genotype): (ph: Phenotype)
    ensures forall t :: Value(ph, t) == Gene(g, t, Base)
  {
    Phenotype(g.attach.base, g.cooper.base, g.deceit.base, g.play.base)
  }

  /** The emotional update of one trait in `update_affect`: `v = 2·phen + 2·gene`, pulled
      towards BASE by the fraction |VOL|, clipped to [-1, 1] (the default bounds of `clip`,
      not the genotype bounds). */
  function Reappraise(phen: real, base: real, vol: real, gene: real): (r: real)
    ensures -1.0 <= r <= 1.0
  {
    var v := phen + phen + 2.0 * gene;
    Clip(v + (base - v) * Abs(vol), -1.0, 1.0)
  }
  /** |x · w| = w · |x| for a non-negative factor w. */
  lemma ProductAbs(x: real, w: real)
    requires w >= 0.0
    ensures Abs(x * w) == w * Abs(x)
  {
    if x >= 0.0 {
      assert x * w >= 0.0;
    } else {
      assert (-x) * w >= 0.0;
    }
  }

  /** A fraction of a non-negative numerator at most its positive denominator lies in [0, 1],
      and so its multiple by `k` lies in [0, k]. */
  lemma ScaledFraction(num: real, den: real, k: nat)
    requires 0.0 <= num <= den && den > 0.0
    ensures 0.0 <= num / den * k as real <= k as real
  {
    var f := num / den;
    assert f * den == num;
    assert 0.0 <= f <= 1.0;
    assert f * k as real <= 1.0 * k as real by {
      assert (1.0 - f) * k as real >= 0.0;
    }
    assert f * k as real >= 0.0;
  }

  /** Homeostasis: the update lands at most `(1 - |VOL|)` times as far from BASE as the raw
      value `v` was; with |VOL| = 1 the trait returns to BASE at once. */
  lemma Homeostasis(phen: real, base: real, vol: real, gene: real)
    requires -1.0 <= base <= 1.0 && Abs(vol) <= 1.0
    ensures Abs(Reappraise(phen, base, vol, gene) - base)
            <= (1.0 - Abs(vol)) * Abs(phen + phen + 2.0 * gene - base)
    ensures Abs(vol) == 1.0 ==> Reappraise(phen, base, vol, gene) == base
  {
    PullBound(phen + phen + 2.0 * gene, base, Abs(vol));
  }

  /** Pulling `v` towards `base` by the fraction `a` and clipping leaves at most the fraction
      `1 - a` of the distance. */
  lemma PullBound(v: real, base: real, a: real)
    requires -1.0 <= base <= 1.0 && 0.0 <= a <= 1.0
    ensures Abs(Clip(v + (base - v) * a, -1.0, 1.0) - base) <= (1.0 - a) * Abs(v - base)
    ensures a == 1.0 ==> Clip(v + (base - v) * a, -1.0, 1.0) == base
  {
    var e := v - base;
    var y := v + (base - v) * a;
    Pull(e, a);
    assert y - base == e * (1.0 - a);
    ProductAbs(e, 1.0 - a);
    ClipCloser(y, base, -1.0, 1.0);
  }

  /** Moving a distance `e` back by the fraction `a` leaves the fraction `1 - a` of it. */
  lemma Pull(e: real, a: real)
    ensures (-e) * a == -(e * a)
    ensures e - e * a == e * (1.0 - a)
  {
  }

  /** The new value of trait `t` in `update_affect` with the perceived outcome `o`: with
      emotions the reappraisal, without them the genotype's response to `o`. */
  function Reacted(emotions: bool, g: Genotype, ph: Phenotype, o: Outcome, t: Trait): real {
    if emotions then Reappraise(Value(ph, t), Gene(g, t, Base), Gene(g, t, Vol), Gene(g, t, On(o)))
    else Gene(g, t, On(o))
  }

  /** The phenotype after `update_affect` with the perceived outcome `o`: every trait
      reacted; with emotions every trait lies within [-1, 1], and without them each trait is
      the genotype's response to `o`, whatever the phenotype was. */
  function Affect(emotions: bool, g: Genotype, ph: Phenotype, o: Outcome): (r: Phenotype)
    ensures forall t :: Value(r, t) == Reacted(emotions, g, ph, o, t)
    ensures emotions ==> forall t :: -1.0 <= Value(r, t) <= 1.0
    ensures !emotions ==> forall t :: Value(r, t) == Gene(g, t, On(o))
  {
    Phenotype(Reacted(emotions, g, ph, o, Attach), Reacted(emotions, g, ph, o, Cooper),
              Reacted(emotions, g, ph, o, Deceit), Reacted(emotions, g, ph, o, Play))
  }

  /** Python's `int()` of a float: truncation towards zero. */
  function Trunc(x: real): (r: int)
    ensures 0.0 <= x ==> 0 <= r && r as real <= x < r as real + 1.0
    ensures x < 0.0 ==> r <= 0 && r as real - 1.0 < x <= r as real
  {
    if x >= 0.0 then x.Floor else -((-x).Floor)
  }

  /** The bin of a component: its position in `[lo, hi]` scaled to `k` bins. */
  function Bucket(x: real, lo: real, hi: real, k: nat): int
    requires lo < hi
  {
    Trunc((x - lo) / (hi - lo) * k as real)
  }

  /** The bin of VOL: its absolute value scaled over half the genotype range. */
  function VolBucket(x: real, lo: real, hi: real, k: nat): int
    requires lo < hi
  {
    Trunc(2.0 * Abs(x) / (hi - lo) * k as real)
  }

  /** A fraction of a non-negative numerator at most its positive denominator, scaled to `k`
      bins and truncated, is a bin index in `0..k`. */
  lemma ScaledTrunc(num: real, den: real, k: nat)
    requires 0.0 <= num <= den && den > 0.0
    ensures 0 <= Trunc(num / den * k as real) <= k
  {
    var y := num / den * k as real;
    ScaledFraction(num, den, k);
    assert 0.0 <= y <= k as real;
    var r := Trunc(y);
    assert r as real <= k as real;
  }

  lemma BucketBounds(x: real, lo: real, hi: real, k: nat)
    requires lo < hi && lo <= x <= hi
    ensures 0 <= Bucket(x, lo, hi, k) <= k
  {
    ScaledTrunc(x - lo, hi - lo, k);
  }

  lemma VolBucketBounds(x: real, lo: real, hi: real, k: nat)
    requires lo < hi && 2.0 * Abs(x) <= hi - lo
    ensures 0 <= VolBucket(x, lo, hi, k) <= k
  {
    ScaledTrunc(2.0 * Abs(x), hi - lo, k);
  }

  /** The bin table `discretize` computes (the VOL column overwritten by its special case). */
  function Buckets(g: Genotype, lo: real, hi: real, k: nat): (b: seq<seq<int>>)
    requires lo < hi
    ensures |b| == 4 && forall t | 0 <= t < 4 :: |b[t]| == 6
  {
    seq(4, t requires 0 <= t < 4 => seq(6, c requires 0 <= c < 6 =>
      var x := Gene(g, Traits[t], Parts[c]);
      if Parts[c] == Vol then VolBucket(x, lo, hi, k) else Bucket(x, lo, hi, k)))
  }

  /** For a genotype within a range symmetric about 0, every bin lies in `0..k`. */
  lemma BucketsInRange(g: Genotype, lo: real, hi: real, k: nat)
    requires lo < hi && lo == -hi && Bounded(g, lo, hi)
    ensures forall t, c | 0 <= t < 4 && 0 <= c < 6 :: 0 <= Buckets(g, lo, hi, k)[t][c] <= k
  {
    forall t, c | 0 <= t < 4 && 0 <= c < 6
      ensures 0 <= Buckets(g, lo, hi, k)[t][c] <= k
    {
      var x := Gene(g, Traits[t], Parts[c]);
      if Parts[c] == Vol {
        VolBucketBounds(x, lo, hi, k);
      } else {
        BucketBounds(x, lo, hi, k);
      }
    }
  }

  function DigitChar(n: nat): char
    requires n < 10
  {
    ('0' as int + n) as char
  }

  /** Python's `str` of a non-negative integer. */
  function NatToString(n: nat): (s: string)
    ensures n < 10 ==> s == [DigitChar(n)]
  {
    if n < 10 then [DigitChar(n)] else NatToString(n / 10) + [DigitChar(n % 10)]
  }

  /** Python's `str` of an integer. */
  function IntToString(i: int): string {
    if i < 0 then "-" + NatToString(-i) else NatToString(i)
  }

  /** The six bins of one trait, in the order BASE, VOL, R, T, P, S. */
  function Group(row: seq<int>): string
    requires |row| == 6
  {
    IntToString(row[0]) + IntToString(row[1]) + IntToString(row[2])
      + IntToString(row[3]) + IntToString(row[4]) + IntToString(row[5])
  }

  /** The prefix letter of a trait's part of the key. */
  function Prefix(t: nat): char
    requires t < 4
  {
    "acdP"[t]
  }

  /** One trait's part of the key: its prefix and its six bins. */
  function Piece(b: seq<seq<int>>, t: nat): string
    requires t < |b| && t < 4 && |b[t]| == 6
  {
    [Prefix(t)] + Group(b[t])
  }

  /** The key of a bin table. */
  function Key(b: seq<seq<int>>): string
    requires |b| == 4 && forall t | 0 <= t < 4 :: |b[t]| == 6
  {
    Piece(b, 0) + Piece(b, 1) + Piece(b, 2) + Piece(b, 3)
  }

  /** `discretize`: the strategy key, the prefixes "a", "c", "d" and "P" (the source writes
      the punishment outcome's letter for the play trait), each followed by its trait's bins. */
  function Discretize(g: Genotype, lo: real, hi: real, k: nat): string
    requires lo < hi
  {
    Key(Buckets(g, lo, hi, k))
  }

  /** With single-digit bins, a group is six characters, one digit per bin. */
  lemma GroupLayout(row: seq<int>)
    requires |row| == 6 && forall c | 0 <= c < 6 :: 0 <= row[c] <= 9
    ensures |Group(row)| == 6
    ensures forall c | 0 <= c < 6 :: Group(row)[c] == DigitChar(row[c])
  {
    assert forall c | 0 <= c < 6 :: IntToString(row[c]) == [DigitChar(row[c])];
  }

  /** With single-digit bins, a trait's piece is seven characters: the prefix, then the digits. */
  lemma PieceLayout(b: seq<seq<int>>, t: nat)
    requires |b| == 4 && forall i | 0 <= i < 4 :: |b[i]| == 6
    requires t < 4 && forall c | 0 <= c < 6 :: 0 <= b[t][c] <= 9
    ensures |Piece(b, t)| == 7 && Piece(b, t)[0] == Prefix(t)
    ensures forall c | 0 <= c < 6 :: Piece(b, t)[1 + c] == DigitChar(b[t][c])
  {
    GroupLayout(b[t]);
  }

  /** Indexing into four concatenated pieces of seven characters. */
  lemma PiecesAt(p0: string, p1: string, p2: string, p3: string, t: nat, j: nat)
    requires |p0| == 7 && |p1| == 7 && |p2| == 7 && |p3| == 7
    requires t < 4 && j < 7
    ensures t == 0 ==> (p0 + p1 + p2 + p3)[7 * t + j] == p0[j]
    ensures t == 1 ==> (p0 + p1 + p2 + p3)[7 * t + j] == p1[j]
    ensures t == 2 ==> (p0 + p1 + p2 + p3)[7 * t + j] == p2[j]
    ensures t == 3 ==> (p0 + p1 + p2 + p3)[7 * t + j] == p3[j]
  {
  }

  /** Position `7·t + j` of the key falls in trait t's piece. */
  lemma KeyAt(b: seq<seq<int>>, t: nat, j: nat)
    requires |b| == 4 && forall i | 0 <= i < 4 :: |b[i]| == 6
    requires forall i | 0 <= i < 4 :: |Piece(b, i)| == 7
    requires t < 4 && j < 7
    ensures |Key(b)| == 28 && Key(b)[7 * t + j] == Piece(b, t)[j]
  {
    var p0, p1, p2, p3 := Piece(b, 0), Piece(b, 1), Piece(b, 2), Piece(b, 3);
    assert |p0| == 7 && |p1| == 7 && |p2| == 7 && |p3| == 7;
    assert Key(b) == p0 + p1 + p2 + p3;
    PiecesAt(p0, p1, p2, p3, t, j);
  }

  lemma PiecesLength(b: seq<seq<int>>)
    requires |b| == 4 && forall t | 0 <= t < 4 :: |b[t]| == 6
    requires forall t, c | 0 <= t < 4 && 0 <= c < 6 :: 0 <= b[t][c] <= 9
    ensures forall i | 0 <= i < 4 :: |Piece(b, i)| == 7
  {
    forall i | 0 <= i < 4
      ensures |Piece(b, i)| == 7
    {
      PieceLayout(b, i);
    }
  }

  /** A table of single-digit bins has a 28-character key: at 7·t the trait's prefix, and at
      7·t + 1 + c the digit of the bin of component c. */
  lemma KeyLayout(b: seq<seq<int>>)
    requires |b| == 4 && forall t | 0 <= t < 4 :: |b[t]| == 6
    requires forall t, c | 0 <= t < 4 && 0 <= c < 6 :: 0 <= b[t][c] <= 9
    ensures |Key(b)| == 28
    ensures forall t | 0 <= t < 4 :: Key(b)[7 * t] == Prefix(t)
    ensures forall t, c | 0 <= t < 4 && 0 <= c < 6 :: Key(b)[7 * t + 1 + c] == DigitChar(b[t][c])
  {
    PiecesLength(b);
    KeyAt(b, 0, 0);
    KeyPrefixes(b);
    KeyDigits(b);
  }

  lemma KeyPrefixes(b: seq<seq<int>>)
    requires |b| == 4 && forall t | 0 <= t < 4 :: |b[t]| == 6
    requires forall t, c | 0 <= t < 4 && 0 <= c < 6 :: 0 <= b[t][c] <= 9
    requires forall i | 0 <= i < 4 :: |Piece(b, i)| == 7
    ensures |Key(b)| == 28
    ensures forall t | 0 <= t < 4 :: Key(b)[7 * t] == Prefix(t)
  {
    KeyAt(b, 0, 0);
    forall t | 0 <= t < 4
      ensures Key(b)[7 * t] == Prefix(t)
    {
      KeyPrefix(b, t);
    }
  }

  lemma KeyPrefix(b: seq<seq<int>>, t: nat)
    requires |b| == 4 && forall i | 0 <= i < 4 :: |b[i]| == 6
    requires forall i, c | 0 <= i < 4 && 0 <= c < 6 :: 0 <= b[i][c] <= 9
    requires forall i | 0 <= i < 4 :: |Piece(b, i)| == 7
    requires t < 4
    ensures Key(b)[7 * t] == Prefix(t)
  {
    KeyAt(b, t, 0);
    PieceLayout(b, t);
  }

  lemma KeyDigits(b: seq<seq<int>>)
    requires |b| == 4 && forall t | 0 <= t < 4 :: |b[t]| == 6
    requires forall t, c | 0 <= t < 4 && 0 <= c < 6 :: 0 <= b[t][c] <= 9
    requires forall i | 0 <= i < 4 :: |Piece(b, i)| == 7
    ensures |Key(b)| == 28
    ensures forall t, c | 0 <= t < 4 && 0 <= c < 6 :: Key(b)[7 * t + 1 + c] == DigitChar(b[t][c])
  {
    KeyAt(b, 0, 0);
    forall t, c | 0 <= t < 4 && 0 <= c < 6
      ensures Key(b)[7 * t + 1 + c] == DigitChar(b[t][c])
    {
      KeyAt(b, t, 1 + c);
      PieceLayout(b, t);
    }
  }

  /** With at most 9 bins over a symmetric range, a genotype's key is 28 characters, laid out
      as `KeyLayout` says. */
  lemma DiscretizeLayout(g: Genotype, lo: real, hi: real, k: nat)
    requires lo < hi && lo == -hi && Bounded(g, lo, hi) && k <= 9
    ensures forall t, c | 0 <= t < 4 && 0 <= c < 6 :: 0 <= Buckets(g, lo, hi, k)[t][c] <= k
    ensures |Discretize(g, lo, hi, k)| == 28
    ensures forall t | 0 <= t < 4 :: Discretize(g, lo, hi, k)[7 * t] == Prefix(t)
    ensures forall t, c | 0 <= t < 4 && 0 <= c < 6 ::
              Discretize(g, lo, hi, k)[7 * t + 1 + c] == DigitChar(Buckets(g, lo, hi, k)[t][c])
  {
    BucketsInRange(g, lo, hi, k);
    KeyLayout(Buckets(g, lo, hi, k));
  }

  /** Equal keys of single-digit tables agree on each bin. */
  lemma KeyDigitSame(b1: seq<seq<int>>, b2: seq<seq<int>>, t: nat, c: nat)
    requires |b1| == 4 && forall i | 0 <= i < 4 :: |b1[i]| == 6
    requires |b2| == 4 && forall i | 0 <= i < 4 :: |b2[i]| == 6
    requires forall i, j | 0 <= i < 4 && 0 <= j < 6 :: 0 <= b1[i][j] <= 9 && 0 <= b2[i][j] <= 9
    requires Key(b1) == Key(b2)
    requires t < 4 && c < 6
    ensures b1[t][c] == b2[t][c]
  {
    KeyDigit(b1, t, c);
    KeyDigit(b2, t, c);
    DigitInjective(b1[t][c], b2[t][c]);
  }

  /** Position `7·t + 1 + c` of the key of a table of single-digit bins is the digit of bin
      `c` of trait `t`. */
  lemma KeyDigit(b: seq<seq<int>>, t: nat, c: nat)
    requires |b| == 4 && forall i | 0 <= i < 4 :: |b[i]| == 6
    requires forall i, j | 0 <= i < 4 && 0 <= j < 6 :: 0 <= b[i][j] <= 9
    requires t < 4 && c < 6
    ensures |Key(b)| == 28 && Key(b)[7 * t + 1 + c] == DigitChar(b[t][c])
  {
    PiecesLength(b);
    KeyAt(b, t, 1 + c);
    PieceLayout(b, t);
  }

  lemma DigitInjective(m: nat, n: nat)
    requires m < 10 && n < 10 && DigitChar(m) == DigitChar(n)
    ensures m == n
  {
  }

  /** Distinct single-digit bin tables have distinct keys. */
  lemma KeySeparates(b1: seq<seq<int>>, b2: seq<seq<int>>)
    requires |b1| == 4 && forall t | 0 <= t < 4 :: |b1[t]| == 6
    requires |b2| == 4 && forall t | 0 <= t < 4 :: |b2[t]| == 6
    requires forall t, c | 0 <= t < 4 && 0 <= c < 6 :: 0 <= b1[t][c] <= 9 && 0 <= b2[t][c] <= 9
    requires Key(b1) == Key(b2)
    ensures b1 == b2
  {
    forall t | 0 <= t < 4
      ensures b1[t] == b2[t]
    {
      forall c | 0 <= c < 6
        ensures b1[t][c] == b2[t][c]
      {
        KeyDigitSame(b1, b2, t, c);
      }
    }
  }

  /** Two genotypes with the same key fall in the same bins (equal genotypes have equal keys,
      `Discretize` being a function of the genotype). */
  lemma DiscretizeSeparates(g1: Genotype, g2: Genotype, lo: real, hi: real, k: nat)
    requires lo < hi && lo == -hi && k <= 9
    requires Bounded(g1, lo, hi) && Bounded(g2, lo, hi)
    requires Discretize(g1, lo, hi, k) == Discretize(g2, lo, hi, k)
    ensures Buckets(g1, lo, hi, k) == Buckets(g2, lo, hi, k)
  {
    BucketsInRange(g1, lo, hi, k);
    BucketsInRange(g2, lo, hi, k);
    KeySeparates(Buckets(g1, lo, hi, k), Buckets(g2, lo, hi, k));
  }
}
