/**
 * Selection in `run`: shifting fitness so that its minimum is zero, the number of parents
 * `int(deaths * population)`, and parent sampling with `random.choices`, weighted by the
 * shifted fitness when its total is non-zero and uniform otherwise. `random.choices` is
 * modelled as CPython computes it: `population[floor(random() * n)]` without weights, and
 * `population[bisect(cum_weights, random() * total, 0, n - 1)]` with them.
 */
module Selection {
  import opened Params
  import opened Genome
  import opened Chance

  /** `min`: the least fitness value. */
  function Min(fs: seq<real>): (m: real)
    requires |fs| > 0
    ensures m in fs
    ensures forall i | 0 <= i < |fs| :: m <= fs[i]
  {
    if |fs| == 1 then fs[0]
    else
      var m := Min(fs[1..]);
      if fs[0] <= m then fs[0] else m
  }

  /** `[f - minfit for f in fitness]`: every value is non-negative, the least is zero, and
      the order of the agents by fitness is unchanged. */
  function Shifted(fs: seq<real>): (r: seq<real>)
    requires |fs| > 0
    ensures |r| == |fs|
    ensures forall i | 0 <= i < |r| :: 0.0 <= r[i]
    ensures 0.0 in r
    ensures forall i | 0 <= i < |r| :: r[i] == fs[i] - Min(fs)
  {
    var m := Min(fs);
    var r := seq(|fs|, i requires 0 <= i < |fs| => fs[i] - m);
    var k :| 0 <= k < |fs| && fs[k] == m;
    assert r[k] == 0.0;
    r
  }

  /** Python's `sum`, added from the left. */
  function Sum(ws: seq<real>): real {
    if ws == [] then 0.0 else Sum(ws[..|ws| - 1]) + ws[|ws| - 1]
  }

  /** A sum of non-negative values is zero exactly when every value is. */
  lemma {:induction false} SumZero(ws: seq<real>)
    requires forall i | 0 <= i < |ws| :: 0.0 <= ws[i]
    ensures 0.0 <= Sum(ws)
    ensures Sum(ws) == 0.0 <==> forall i | 0 <= i < |ws| :: ws[i] == 0.0
  {
    if ws != [] {
      SumZero(ws[..|ws| - 1]);
    }
  }

  /** The shifted fitness sums to zero exactly when every agent has the same payoff, which is
      when the source falls back to uniform sampling. */
  lemma ShiftedSumZero(fs: seq<real>)
    requires |fs| > 0
    ensures 0.0 <= Sum(Shifted(fs))
    ensures Sum(Shifted(fs)) == 0.0 <==> forall i, j | 0 <= i < |fs| && 0 <= j < |fs| :: fs[i] == fs[j]
  {
    SumZero(Shifted(fs));
  }

  /** `itertools.accumulate`: the running totals, each adding one weight to the one before and
      the last being the sum of all weights. */
  function Cumulative(ws: seq<real>): (r: seq<real>)
    ensures |r| == |ws|
    ensures |ws| > 0 ==> r[0] == ws[0]
    ensures forall i | 0 < i < |ws| :: r[i] == r[i - 1] + ws[i]
    ensures |ws| > 0 ==> r[|ws| - 1] == Sum(ws)
  {
    if ws == [] then []
    else
      var front := ws[..|ws| - 1];
      assert |front| == 0 ==> Sum(front) == 0.0;
      Cumulative(front) + [Sum(ws)]
  }

  /** For non-negative weights the running totals never decrease. */
  lemma {:induction false} CumulativeSorted(ws: seq<real>, i: nat, j: nat)
    requires forall k | 0 <= k < |ws| :: 0.0 <= ws[k]
    requires i <= j < |ws|
    ensures Cumulative(ws)[i] <= Cumulative(ws)[j]
  {
    if i < j {
      CumulativeSorted(ws, i, j - 1);
    }
  }

  lemma CumulativeSortedAll(ws: seq<real>)
    requires forall k | 0 <= k < |ws| :: 0.0 <= ws[k]
    ensures forall i, j | 0 <= i <= j < |ws| :: Cumulative(ws)[i] <= Cumulative(ws)[j]
  {
    forall i, j | 0 <= i <= j < |ws|
      ensures Cumulative(ws)[i] <= Cumulative(ws)[j]
    {
      CumulativeSorted(ws, i, j);
    }
  }

  /** `bisect.bisect_right(a, x, lo, hi)`, the binary search of CPython: for a sorted slice,
      the split point with every element before it at most `x` and every element after it
      above `x`. */
  function BisectRight(a: seq<real>, x: real, lo: nat, hi: nat): (r: nat)
    requires lo <= hi <= |a|
    requires forall i, j | lo <= i <= j < hi :: a[i] <= a[j]
    ensures lo <= r <= hi
    ensures forall i | lo <= i < r :: a[i] <= x
    ensures forall i | r <= i < hi :: x < a[i]
    decreases hi - lo
  {
    if lo < hi then
      var mid := (lo + hi) / 2;
      if x < a[mid] then BisectRight(a, x, lo, mid) else BisectRight(a, x, mid + 1, hi)
    else lo
  }

  lemma ScaledBelow(u: Unit, total: real)
    requires total >= 0.0
    ensures 0.0 <= u * total
    ensures total > 0.0 ==> u * total < total
  {
    assert (1.0 - u) * total >= 0.0;
    if total > 0.0 {
      assert (1.0 - u) * total > 0.0;
    }
  }

  /** The index whose running-total interval holds a point below the total has a positive weight. */
  lemma IntervalPositive(ws: seq<real>, x: real, i: nat)
    requires forall k | 0 <= k < |ws| :: 0.0 <= ws[k]
    requires i < |ws|
    requires 0.0 <= x
    requires i == 0 || Cumulative(ws)[i - 1] <= x
    requires x < Cumulative(ws)[i]
    ensures ws[i] > 0.0
  {
  }

  /** `random() * total`: a point below the total when the total is positive. */
  function Point(u: Unit, total: real): (x: real)
    ensures total > 0.0 ==> 0.0 <= x < total
  {
    if total > 0.0 then
      ScaledBelow(u, total);
      u * total
    else u * total
  }

  /** One weighted draw of `random.choices`: the index whose running-total interval holds
      `random() * total`, which therefore never has a weight of zero. */
  function WeightedPick(ws: seq<real>, u: Unit): (i: nat)
    requires |ws| > 0
    requires forall k | 0 <= k < |ws| :: 0.0 <= ws[k]
    ensures i < |ws|
    ensures i == 0 || Cumulative(ws)[i - 1] <= Point(u, Sum(ws))
    ensures Sum(ws) > 0.0 ==> Point(u, Sum(ws)) < Cumulative(ws)[i]
    ensures Sum(ws) > 0.0 ==> ws[i] > 0.0
  {
    var cum := Cumulative(ws);
    CumulativeSortedAll(ws);
    var x := Point(u, Sum(ws));
    var i := BisectRight(cum, x, 0, |ws| - 1);
    assert i == 0 || cum[i - 1] <= x;
    if Sum(ws) > 0.0 then
      assert x < cum[i];
      IntervalPositive(ws, x, i);
      i
    else i
  }

  /** One unweighted draw of `random.choices`: `floor(random() * n)`. */
  function UniformPick(n: nat, u: Unit): (i: nat)
    requires n > 0
    ensures i < n
  {
    ScaledBelow(u, n as real);
    (u * n as real).Floor
  }

  /** One draw of `random.choices(agents, weights=fitness)`: weighted by the shifted fitness,
      or uniform when those weights sum to zero. */
  function Draw(ws: seq<real>, u: Unit): (i: nat)
    requires |ws| > 0
    requires forall k | 0 <= k < |ws| :: 0.0 <= ws[k]
    ensures i < |ws|
    ensures Sum(ws) > 0.0 ==> ws[i] > 0.0
  {
    SumZero(ws);
    if Sum(ws) != 0.0 then
      WeightedPick(ws, u)
    else UniformPick(|ws|, u)
  }

  /** `int(params["deaths"] * params["population"])`; a negative count draws nothing. */
  function ParentCount(cfg: Config): (k: nat)
    ensures cfg.deaths * cfg.population as real >= 0.0 ==>
              k as real <= cfg.deaths * cfg.population as real < k as real + 1.0
  {
    var k := Trunc(cfg.deaths * cfg.population as real);
    if k < 0 then 0 else k
  }

  /** The positions in the agent list of the `k` parents `random.choices` draws with weights
      `ws`; while the weights have a positive total, none of them has a weight of zero. */
  function ParentIndices(ws: seq<real>, k: nat, draws: nat -> Unit): (ps: seq<nat>)
    requires |ws| > 0
    requires forall i | 0 <= i < |ws| :: 0.0 <= ws[i]
    ensures |ps| == k
    ensures forall j | 0 <= j < k :: ps[j] < |ws|
    ensures Sum(ws) > 0.0 ==> forall j | 0 <= j < k :: ws[ps[j]] > 0.0
  {
    if k == 0 then [] else ParentIndices(ws, k - 1, draws) + [Draw(ws, draws(k - 1))]
  }

  /** Unless every agent has the same payoff, a least-fit agent is never drawn as a parent. */
  lemma ParentsAboveMinimum(fs: seq<real>, k: nat, draws: nat -> Unit, j: nat)
    requires |fs| > 0 && j < k
    requires exists a, b | 0 <= a < |fs| && 0 <= b < |fs| :: fs[a] != fs[b]
    ensures fs[ParentIndices(Shifted(fs), k, draws)[j]] > Min(fs)
  {
    ShiftedSumZero(fs);
  }

  /** The agents at the given positions of the agent list. */
  function Select(agents: seq<nat>, idx: seq<nat>): (r: seq<nat>)
    requires forall j | 0 <= j < |idx| :: idx[j] < |agents|
    ensures |r| == |idx|
    ensures forall j | 0 <= j < |idx| :: r[j] == agents[idx[j]]
  {
    if idx == [] then [] else Select(agents, idx[..|idx| - 1]) + [agents[idx[|idx| - 1]]]
  }

  /** `random.choices(agents, weights=fitness, k=nparents)`: `k` agents of the list, drawn
      with the shifted fitness as weights. */
  function Parents(agents: seq<nat>, fs: seq<real>, k: nat, draws: nat -> Unit): (ps: seq<nat>)
    requires |agents| == |fs| > 0
    ensures |ps| == k
    ensures forall j | 0 <= j < k :: ps[j] in agents
  {
    Select(agents, ParentIndices(Shifted(fs), k, draws))
  }
}
