/**
 * The MMR engine for ranked multiplayer games. Every player carries a skill,
 * a skill deviation and two parallel lists of past performances and their
 * weights. Processing a game diffuses and inflates each participant's
 * uncertainty, estimates every participant's performance from the same
 * snapshot of the participants, appends it with weight 1/β², and re-solves
 * the player's skill.
 */
module Mmr {
  import opened Dicts
  import opened RealMath
  import General
  import Replays
  import Utils

  /** The skill and skill deviation of a new player. */
  const StartSkill: real := 1500.0
  const StartDeviation: real := 350.0

  /** A row of the players table: `SKILL`, `SKILL_DEVIATION`, `PERF_WEIGHT`, `PERF_HISTORY` and `GAMES`. */
  datatype Player = Player(skill: real, deviation: real, perfWeight: seq<real>, perfHistory: seq<real>, games: seq<string>)

  /** A row of the games table; `RANKING` lists the player IDs from first to last place. */
  datatype Game = Game(id: string, date: string, ranking: seq<string>, processed: bool)

  /** The hyperparameters γ (temporal diffusion), β (performance deviation) and ρ (inverse momentum). */
  datatype Hyper = Hyper(gamma: real, beta: real, rho: real)

  /** A row of the configuration table written by the hyperparameter search. */
  datatype Configuration = Configuration(temporalDiffusion: real, performanceDeviation: real, inverseMomentum: real,
                                         successRate: real)

  function GameId(g: Game): string { g.id }
  function GameDate(g: Game): string { g.date }

  /**
   * What the engine needs of a player record: a positive deviation, and
   * two lists of equal, non-zero length with positive weights.
   */
  ghost predicate WellFormed(p: Player) {
    && 0.0 < p.deviation
    && |p.perfWeight| == |p.perfHistory|
    && 1 <= |p.perfWeight|
    && (forall j :: 0 <= j < |p.perfWeight| ==> 0.0 < p.perfWeight[j])
  }

  /** β must be non-zero (the engine divides by it) and ρ non-negative. */
  predicate ValidHyper(h: Hyper) {
    h.beta != 0.0 && 0.0 <= h.rho
  }

  // ---------------------------------------------------------------------
  // Diffusion and inflation
  // ---------------------------------------------------------------------

  /** `sum(l)`, added from left to right. */
  function Sum(w: seq<real>): real {
    if w == [] then 0.0 else Sum(w[..|w| - 1]) + w[|w| - 1]
  }

  lemma {:induction false} SumPositive(w: seq<real>)
    requires forall j :: 0 <= j < |w| ==> 0.0 < w[j]
    ensures w != [] ==> 0.0 < Sum(w)
    ensures 0.0 <= Sum(w)
  {
    if w != [] {
      SumPositive(w[..|w| - 1]);
    }
  }

  /** Replacing one element changes the sum by the difference. */
  lemma {:induction false} SumUpdate(w: seq<real>, i: nat, v: real)
    requires i < |w|
    ensures Sum(w[i := v]) == Sum(w) - w[i] + v
  {
    var n := |w| - 1;
    if i < n {
      assert w[i := v][..n] == w[..n][i := v];
      SumUpdate(w[..n], i, v);
    } else {
      assert w[i := v][..n] == w[..n];
    }
  }

  /** Every element of `w` multiplied by `f`. */
  function Scaled(w: seq<real>, f: real): (r: seq<real>)
    ensures |r| == |w|
    ensures forall j :: 0 <= j < |w| ==> r[j] == w[j] * f
  {
    seq(|w|, j requires 0 <= j < |w| => w[j] * f)
  }

  /** Scaling every element scales the sum. */
  lemma {:induction false} SumScaled(w: seq<real>, f: real)
    ensures Sum(Scaled(w, f)) == Sum(w) * f
  {
    if w != [] {
      var n := |w| - 1;
      var a, b := Scaled(w, f)[..n], Scaled(w[..n], f);
      assert |a| == |b|;
      forall j | 0 <= j < n ensures a[j] == b[j] {
      }
      assert a == b;
      SumScaled(w[..n], f);
    }
  }

  lemma SumUpdateScaled(w: seq<real>, v: real, f: real)
    requires w != []
    ensures Sum(Scaled(w[0 := v], f)) == (Sum(w) - w[0] + v) * f
  {
    SumUpdate(w, 0, v);
    SumScaled(w[0 := v], f);
  }

  /** κ = 1 / (1 + (γ/σ)²), the share of confidence a player keeps. */
  function Kappa(deviation: real, gamma: real): (k: real)
    requires deviation != 0.0
    ensures 0.0 < k <= 1.0
  {
    var r := gamma / deviation;
    assert 0.0 <= r * r;
    1.0 / (1.0 + r * r)
  }

  /** `wg = κ^ρ * PERF_WEIGHT[0]`, the weight kept on the prior performance. */
  function PriorWeight(p: Player, h: Hyper, fns: Numerics): real
    requires WellFormed(p)
  {
    fns.pow(Kappa(p.deviation, h.gamma), h.rho) * p.perfWeight[0]
  }

  /** `wl = (1 - κ^ρ) * sum(PERF_WEIGHT)`, the weight moved onto the current skill. */
  function SkillWeight(p: Player, h: Hyper, fns: Numerics): real
    requires WellFormed(p)
  {
    (1.0 - fns.pow(Kappa(p.deviation, h.gamma), h.rho)) * Sum(p.perfWeight)
  }

  /** Both weights are non-negative and the prior one is positive. */
  lemma BlendWeights(p: Player, h: Hyper, fns: Numerics)
    requires WellFormed(p) && 0.0 <= h.rho && fns.Valid()
    ensures 0.0 < PriorWeight(p, h, fns) && 0.0 <= SkillWeight(p, h, fns)
  {
    var k := fns.pow(Kappa(p.deviation, h.gamma), h.rho);
    assert 0.0 < k <= 1.0;
    SumPositive(p.perfWeight);
    assert 0.0 <= (1.0 - k) * Sum(p.perfWeight);
  }

  /** `κ^(1+ρ)`, the factor every weight is scaled by. */
  function Decay(p: Player, h: Hyper, fns: Numerics): real
    requires p.deviation != 0.0
  {
    fns.pow(Kappa(p.deviation, h.gamma), 1.0 + h.rho)
  }

  /** `(wg * a + wl * s) / (wg + wl)`: the prior performance `a` blended with the skill `s`. */
  function Blend(a: real, s: real, wg: real, wl: real): real
    requires wg + wl != 0.0
  {
    (wg * a + wl * s) / (wg + wl)
  }

  /** `κ * (wg + wl)`, the prior weight before the common scaling. */
  function PriorSlot(kappa: real, wg: real, wl: real): real {
    kappa * (wg + wl)
  }

  /** The player record after `diffuse`. */
  function Diffused(p: Player, h: Hyper, fns: Numerics): (q: Player)
    requires WellFormed(p) && 0.0 <= h.rho && fns.Valid()
  {
    var kappa := Kappa(p.deviation, h.gamma);
    var wg := PriorWeight(p, h, fns);
    var wl := SkillWeight(p, h, fns);
    BlendWeights(p, h, fns);
    p.(perfHistory := p.perfHistory[0 := Blend(p.perfHistory[0], p.skill, wg, wl)],
       perfWeight := Scaled(p.perfWeight[0 := PriorSlot(kappa, wg, wl)], Decay(p, h, fns)),
       deviation := p.deviation / fns.sqrt(kappa))
  }

  /**
   * `diffuse` keeps the lengths, the skill and the games; it leaves every
   * performance but the prior one alone; it scales every weight by
   * κ^(1+ρ), the prior weight after setting it to κ·(wg + wl).
   */
  lemma DiffusedShape(p: Player, h: Hyper, fns: Numerics)
    requires WellFormed(p) && 0.0 <= h.rho && fns.Valid()
    ensures var q := Diffused(p, h, fns);
      && q.skill == p.skill && q.games == p.games
      && |q.perfWeight| == |p.perfWeight| && |q.perfHistory| == |p.perfHistory|
      && q.perfHistory[1..] == p.perfHistory[1..]
      && (forall j :: 1 <= j < |p.perfWeight| ==> q.perfWeight[j] == p.perfWeight[j] * Decay(p, h, fns))
      && q.perfWeight[0] == PriorSlot(Kappa(p.deviation, h.gamma), PriorWeight(p, h, fns), SkillWeight(p, h, fns)) * Decay(p, h, fns)
  {
    var q := Diffused(p, h, fns);
    assert q.perfHistory[1..] == p.perfHistory[1..];
  }

  /** The prior performance moves to a weighted average of itself and the skill. */
  lemma DiffusedPrior(p: Player, h: Hyper, fns: Numerics)
    requires WellFormed(p) && 0.0 <= h.rho && fns.Valid()
    ensures var q := Diffused(p, h, fns);
      && (p.perfHistory[0] <= p.skill ==> p.perfHistory[0] <= q.perfHistory[0] <= p.skill)
      && (p.skill <= p.perfHistory[0] ==> p.skill <= q.perfHistory[0] <= p.perfHistory[0])
  {
    BlendWeights(p, h, fns);
    BetweenWeighted(p.perfHistory[0], p.skill, PriorWeight(p, h, fns), SkillWeight(p, h, fns));
  }

  /** The deviation is divided by √κ and stays positive; the record stays well formed. */
  lemma DiffusedDeviation(p: Player, h: Hyper, fns: Numerics)
    requires WellFormed(p) && 0.0 <= h.rho && fns.Valid()
    ensures var q := Diffused(p, h, fns);
      && q.deviation * fns.sqrt(Kappa(p.deviation, h.gamma)) == p.deviation
      && WellFormed(q)
  {
    var q := Diffused(p, h, fns);
    var kappa := Kappa(p.deviation, h.gamma);
    var s := fns.sqrt(kappa);
    SqrtPositive(fns, kappa);
    assert q.deviation == p.deviation / s;
    assert q.deviation * s == p.deviation;
    DiffusedShape(p, h, fns);
    BlendWeights(p, h, fns);
    var f := Decay(p, h, fns);
    assert 0.0 < f;
    var v := PriorSlot(kappa, PriorWeight(p, h, fns), SkillWeight(p, h, fns));
    assert 0.0 < v;
    forall j | 0 <= j < |q.perfWeight| ensures 0.0 < q.perfWeight[j] {
      if j == 0 {
        assert q.perfWeight[0] == v * f;
      } else {
        assert q.perfWeight[j] == p.perfWeight[j] * f;
      }
    }
  }

  /** A weighted average with a positive and a non-negative weight lies between its two points. */
  lemma BetweenWeighted(a: real, s: real, wg: real, wl: real)
    requires 0.0 < wg && 0.0 <= wl
    ensures a <= s ==> a <= Blend(a, s, wg, wl) <= s
    ensures s <= a ==> s <= Blend(a, s, wg, wl) <= a
  {
    var t := wg + wl;
    var m := (wg * a + wl * s) / t;
    assert m * t == wg * a + wl * s;
    assert a * t == wg * a + wl * a;
    assert s * t == wg * s + wl * s;
    if a <= s {
      assert wl * a <= wl * s;
      CancelPositive(a, m, t);
      CancelPositive(m, s, t);
    }
    if s <= a {
      assert wl * s <= wl * a;
      assert wg * s <= wg * a;
      CancelPositive(s, m, t);
      CancelPositive(m, a, t);
    }
  }

  lemma CancelPositive(x: real, y: real, t: real)
    requires 0.0 < t && x * t <= y * t
    ensures x <= y
  {
    assert (y - x) * t == y * t - x * t;
  }

  /**
   * The total weight after `diffuse`: the weights other than the prior,
   * plus κ·(wg + wl), all scaled by κ^(1+ρ).
   */
  lemma DiffusedTotalWeight(p: Player, h: Hyper, fns: Numerics)
    requires WellFormed(p) && 0.0 <= h.rho && fns.Valid()
    ensures Sum(Diffused(p, h, fns).perfWeight) ==
            (Sum(p.perfWeight) - p.perfWeight[0]
             + PriorSlot(Kappa(p.deviation, h.gamma), PriorWeight(p, h, fns), SkillWeight(p, h, fns))) * Decay(p, h, fns)
  {
    var v := PriorSlot(Kappa(p.deviation, h.gamma), PriorWeight(p, h, fns), SkillWeight(p, h, fns));
    var f := Decay(p, h, fns);
    DiffusedWeights(p, h, fns);
    SumUpdateScaled(p.perfWeight, v, f);
  }

  /** The weights after `diffuse`, as one sequence. */
  lemma DiffusedWeights(p: Player, h: Hyper, fns: Numerics)
    requires WellFormed(p) && 0.0 <= h.rho && fns.Valid()
    ensures Diffused(p, h, fns).perfWeight ==
            Scaled(p.perfWeight[0 := PriorSlot(Kappa(p.deviation, h.gamma), PriorWeight(p, h, fns), SkillWeight(p, h, fns))],
                   Decay(p, h, fns))
  {
    var q := Diffused(p, h, fns);
    var w := p.perfWeight[0 := PriorSlot(Kappa(p.deviation, h.gamma), PriorWeight(p, h, fns), SkillWeight(p, h, fns))];
    var r := Scaled(w, Decay(p, h, fns));
    assert forall j :: 0 <= j < |w| ==> r[j] == q.perfWeight[j];
  }

  /** `diffuse`: rewrites the prior slot, then scales the weights one index at a time. */
  method Diffuse(p: Player, h: Hyper, fns: Numerics) returns (q: Player)
    requires WellFormed(p) && 0.0 <= h.rho && fns.Valid()
    ensures q == Diffused(p, h, fns)
  {
    var kappa := Kappa(p.deviation, h.gamma);
    var wg := PriorWeight(p, h, fns);
    var wl := SkillWeight(p, h, fns);
    BlendWeights(p, h, fns);
    var history := p.perfHistory[0 := Blend(p.perfHistory[0], p.skill, wg, wl)];
    var weights := p.perfWeight[0 := PriorSlot(kappa, wg, wl)];
    weights := ScaleWeights(weights, fns.pow(kappa, 1.0 + h.rho));
    q := p.(perfHistory := history, perfWeight := weights, deviation := p.deviation / fns.sqrt(kappa));
    DiffusedWeights(p, h, fns);
    ghost var expected := Diffused(p, h, fns);
    assert q.perfWeight == expected.perfWeight;
    assert q.perfHistory == expected.perfHistory;
    assert q.deviation == expected.deviation;
  }

  /** The loop of `diffuse` that multiplies every weight, index by index, by `factor`. */
  method ScaleWeights(w: seq<real>, factor: real) returns (r: seq<real>)
    ensures r == Scaled(w, factor)
  {
    r := w;
    for i := 0 to |r|
      invariant |r| == |w|
      invariant forall j :: 0 <= j < i ==> r[j] == w[j] * factor
      invariant forall j :: i <= j < |r| ==> r[j] == w[j]
    {
      r := r[i := r[i] * factor];
    }
    assert forall j :: 0 <= j < |w| ==> r[j] == Scaled(w, factor)[j];
  }

  /** The deviation after the game's uncertainty is added: √(σ² + β²). */
  function Inflated(p: Player, beta: real, fns: Numerics): Player {
    p.(deviation := fns.sqrt(SumOfSquares(p.deviation, beta)))
  }

  /** `a ** 2 + b ** 2`, positive as soon as `b` is non-zero. */
  function SumOfSquares(a: real, b: real): (r: real)
    ensures r == a * a + b * b
    ensures b != 0.0 ==> 0.0 < r
  {
    Square(a) + Square(b)
  }

  /** A participant after `diffuse` and the inflation that follows it. */
  function Prepared(p: Player, h: Hyper, fns: Numerics): Player
    requires WellFormed(p) && 0.0 <= h.rho && fns.Valid()
  {
    Inflated(Diffused(p, h, fns), h.beta, fns)
  }

  /**
   * After diffusion and inflation σ'² = σ²/κ + β², so the deviation never
   * decreases; the record stays well formed.
   */
  lemma PreparedDeviation(p: Player, h: Hyper, fns: Numerics)
    requires WellFormed(p) && 0.0 <= h.rho && fns.Valid()
    ensures var q := Prepared(p, h, fns);
      && q.deviation * q.deviation == p.deviation * p.deviation / Kappa(p.deviation, h.gamma) + h.beta * h.beta
      && p.deviation <= q.deviation
      && WellFormed(q)
  {
    DiffusedDeviation(p, h, fns);
    var d := Diffused(p, h, fns);
    var kappa := Kappa(p.deviation, h.gamma);
    SqrtPositive(fns, kappa);
    var y := SumOfSquares(d.deviation, h.beta);
    SqrtPositive(fns, y);
    var inflated := fns.sqrt(y);
    InflationBound(p.deviation, d.deviation, fns.sqrt(kappa), kappa, h.beta, inflated);
    assert Prepared(p, h, fns).deviation == inflated;
  }

  /** σ = d·√κ and σ'² = d² + β² give σ'² = σ²/κ + β² ≥ σ². */
  lemma InflationBound(dev: real, d: real, s: real, kappa: real, beta: real, inflated: real)
    requires 0.0 < kappa <= 1.0 && 0.0 < s && s * s == kappa
    requires 0.0 < dev && d * s == dev
    requires 0.0 <= inflated && inflated * inflated == SumOfSquares(d, beta)
    ensures inflated * inflated == dev * dev / kappa + beta * beta
    ensures dev <= inflated
  {
    assert dev * dev == d * d * kappa by {
      assert (d * s) * (d * s) == d * d * (s * s);
    }
    assert d * d == dev * dev / kappa;
    assert dev * dev <= d * d by {
      assert d * d * kappa <= d * d * 1.0;
    }
    assert 0.0 <= beta * beta;
    SquareMonotone(dev, inflated);
  }

  lemma SquareMonotone(a: real, b: real)
    requires 0.0 < a && 0.0 <= b && a * a <= b * b
    ensures a <= b
  {
    assert (b - a) * (b + a) == b * b - a * a;
    assert 0.0 < b + a;
  }

  // ---------------------------------------------------------------------
  // Performance and skill estimation
  // ---------------------------------------------------------------------

  /** Every record of the ranking has a positive deviation. */
  predicate PositiveDeviations(rs: seq<Player>) {
    forall j :: 0 <= j < |rs| ==> 0.0 < rs[j].deviation
  }

  /** `1/σ · (tanh((x - μ) / (2√3/π · σ)) + offset)`: one participant's term of the performance equation. */
  function PerfTerm(p: Player, x: real, offset: real, fns: Numerics): real
    requires 0.0 < p.deviation
  {
    1.0 / p.deviation * (fns.tanh((x - p.skill) / (2.0 * Sqrt3 / Pi * p.deviation)) + offset)
  }

  /** The terms of all participants of `rs`, added from left to right. */
  function PerfSum(rs: seq<Player>, x: real, offset: real, fns: Numerics): real
    requires PositiveDeviations(rs)
  {
    if rs == [] then 0.0 else PerfSum(rs[..|rs| - 1], x, offset, fns) + PerfTerm(rs[|rs| - 1], x, offset, fns)
  }

  /**
   * The function whose zero is the performance of the participant at place
   * `i`: offset -1 for everyone placed up to and including `i`, offset +1
   * for everyone from `i` on, so the participant itself is counted in both.
   */
  function PerfObjective(rs: seq<Player>, i: nat, fns: Numerics): real -> real
    requires i < |rs| && PositiveDeviations(rs)
  {
    x => PerfSum(rs[..i + 1], x, -1.0, fns) + PerfSum(rs[i..], x, 1.0, fns)
  }

  /** The performance `getPerfEstimation` returns. */
  function PerfEstimation(rs: seq<Player>, i: nat, fns: Numerics): real
    requires i < |rs| && PositiveDeviations(rs)
  {
    Utils.Bisection(PerfObjective(rs, i, fns))
  }

  /** `w · β / (√3/π) · tanh((x - h) / (2√3/π · β))`: one past performance's term of the skill equation. */
  function SkillTerm(w: real, h: real, x: real, beta: real, fns: Numerics): real
    requires beta != 0.0
  {
    w * beta / (Sqrt3 / Pi) * fns.tanh((x - h) / (2.0 * Sqrt3 / Pi * beta))
  }

  /** The terms of every past performance, index 0 included, added from left to right. */
  function SkillSum(ws: seq<real>, hs: seq<real>, x: real, beta: real, fns: Numerics): real
    requires |ws| == |hs| && beta != 0.0
  {
    if ws == [] then 0.0
    else SkillSum(ws[..|ws| - 1], hs[..|hs| - 1], x, beta, fns) + SkillTerm(ws[|ws| - 1], hs[|hs| - 1], x, beta, fns)
  }

  /** The function whose zero is the player's skill: the prior term, then one term per past performance. */
  function SkillObjective(p: Player, beta: real, fns: Numerics): real -> real
    requires WellFormed(p) && beta != 0.0
  {
    x => p.perfWeight[0] * (x - p.perfHistory[0]) + SkillSum(p.perfWeight, p.perfHistory, x, beta, fns)
  }

  /** The skill `getAverageSkillEstimation` returns. */
  function SkillEstimation(p: Player, beta: real, fns: Numerics): real
    requires WellFormed(p) && beta != 0.0
  {
    Utils.Bisection(SkillObjective(p, beta, fns))
  }

  /** `getPerfEstimation`: hands the performance equation to `findZero`. */
  method GetPerfEstimation(rs: seq<Player>, i: nat, fns: Numerics) returns (perf: real)
    requires i < |rs| && PositiveDeviations(rs)
    ensures perf == PerfEstimation(rs, i, fns)
    ensures Utils.Lower <= perf < Utils.Upper
  {
    perf := Utils.FindZero(PerfObjective(rs, i, fns));
  }

  /** `getAverageSkillEstimation`: hands the skill equation to `findZero`. */
  method GetAverageSkillEstimation(p: Player, beta: real, fns: Numerics) returns (skill: real)
    requires WellFormed(p) && beta != 0.0
    ensures skill == SkillEstimation(p, beta, fns)
    ensures Utils.Lower <= skill < Utils.Upper
  {
    skill := Utils.FindZero(SkillObjective(p, beta, fns));
  }

  /** Rankings that agree on every participant's skill and deviation. */
  ghost predicate SameRatings(rs: seq<Player>, ss: seq<Player>) {
    |rs| == |ss| && forall j :: 0 <= j < |rs| ==> rs[j].skill == ss[j].skill && rs[j].deviation == ss[j].deviation
  }

  lemma {:induction false} PerfSumReadsRatings(rs: seq<Player>, ss: seq<Player>, x: real, offset: real, fns: Numerics)
    requires PositiveDeviations(rs) && SameRatings(rs, ss)
    ensures PositiveDeviations(ss)
    ensures PerfSum(rs, x, offset, fns) == PerfSum(ss, x, offset, fns)
  {
    if rs != [] {
      var n := |rs| - 1;
      PerfSumReadsRatings(rs[..n], ss[..n], x, offset, fns);
    }
  }

  /**
   * A participant's performance depends only on the skills and deviations of
   * the ranking: the histories, weights and games of the copies do not enter
   * it, so the estimates of one game can be computed from one snapshot in
   * any order.
   */
  lemma PerfEstimationReadsRatings(rs: seq<Player>, ss: seq<Player>, i: nat, fns: Numerics)
    requires i < |rs| && PositiveDeviations(rs) && SameRatings(rs, ss)
    ensures PositiveDeviations(ss)
    ensures PerfEstimation(rs, i, fns) == PerfEstimation(ss, i, fns)
  {
    PerfSumReadsRatings(rs, ss, 0.0, 1.0, fns);
    forall x | Utils.Lower <= x <= Utils.Upper
      ensures PerfObjective(rs, i, fns)(x) == PerfObjective(ss, i, fns)(x)
    {
      PerfSumReadsRatings(rs[..i + 1], ss[..i + 1], x, -1.0, fns);
      PerfSumReadsRatings(rs[i..], ss[i..], x, 1.0, fns);
    }
    Utils.BisectionExtensional(PerfObjective(rs, i, fns), PerfObjective(ss, i, fns));
  }

  /** When the performance equation changes sign over the search interval, the estimate is within tolerance of a zero. */
  lemma PerfEstimationNearRoot(rs: seq<Player>, i: nat, fns: Numerics)
    requires i < |rs| && PositiveDeviations(rs)
    requires PerfObjective(rs, i, fns)(Utils.Lower) * PerfObjective(rs, i, fns)(Utils.Upper) <= 0.0
    ensures Utils.NearRoot(PerfObjective(rs, i, fns), PerfEstimation(rs, i, fns))
  {
    Utils.BisectionBrackets(PerfObjective(rs, i, fns));
  }

  // ---------------------------------------------------------------------
  // Updating one participant
  // ---------------------------------------------------------------------

  /** `1 / β ** 2`, the weight of a new performance. */
  function NewWeight(beta: real): (w: real)
    requires beta != 0.0
    ensures 0.0 < w
  {
    1.0 / Square(beta)
  }

  /** The participant at place `i` after `update`: the new performance and its weight appended, the skill re-solved. */
  function Updated(rs: seq<Player>, i: nat, beta: real, fns: Numerics): Player
    requires i < |rs| && PositiveDeviations(rs) && WellFormed(rs[i]) && beta != 0.0
  {
    var p := rs[i];
    var q := p.(perfHistory := p.perfHistory + [PerfEstimation(rs, i, fns)], perfWeight := p.perfWeight + [NewWeight(beta)]);
    AppendKeepsWellFormed(p, PerfEstimation(rs, i, fns), NewWeight(beta));
    q.(skill := SkillEstimation(q, beta, fns))
  }

  lemma AppendKeepsWellFormed(p: Player, perf: real, w: real)
    requires WellFormed(p) && 0.0 < w
    ensures WellFormed(p.(perfHistory := p.perfHistory + [perf], perfWeight := p.perfWeight + [w]))
  {
  }

  /**
   * `update` grows both lists by one: the new performance, estimated from
   * the ratings of the whole ranking, with weight 1/β²; the skill becomes
   * the zero found for the grown lists; deviation and games are kept and
   * the record stays well formed.
   */
  lemma UpdatedSpec(rs: seq<Player>, i: nat, beta: real, fns: Numerics)
    requires i < |rs| && PositiveDeviations(rs) && WellFormed(rs[i]) && beta != 0.0
    ensures var q := Updated(rs, i, beta, fns);
      && q.perfHistory == rs[i].perfHistory + [PerfEstimation(rs, i, fns)]
      && q.perfWeight == rs[i].perfWeight + [1.0 / (beta * beta)]
      && q.deviation == rs[i].deviation && q.games == rs[i].games
      && q.skill == SkillEstimation(q.(skill := rs[i].skill), beta, fns)
      && Utils.Lower <= q.skill < Utils.Upper
      && WellFormed(q)
  {
    var q := Updated(rs, i, beta, fns);
    assert q.(skill := rs[i].skill) == rs[i].(perfHistory := q.perfHistory, perfWeight := q.perfWeight);
  }

  /** `update`: estimates the performance from the (copied) ranking, appends it, and re-solves the skill. */
  method Update(rs: seq<Player>, i: nat, beta: real, fns: Numerics) returns (q: Player)
    requires i < |rs| && PositiveDeviations(rs) && WellFormed(rs[i]) && beta != 0.0
    ensures q == Updated(rs, i, beta, fns)
  {
    var perf := GetPerfEstimation(rs, i, fns);
    q := rs[i];
    q := q.(perfHistory := q.perfHistory + [perf]);
    q := q.(perfWeight := q.perfWeight + [1.0 / Square(beta)]);
    AppendKeepsWellFormed(rs[i], perf, NewWeight(beta));
    var skill := GetAverageSkillEstimation(q, beta, fns);
    q := q.(skill := skill);
  }

  // ---------------------------------------------------------------------
  // Processing one game
  // ---------------------------------------------------------------------

  /** A ranking `processGame` can handle: non-empty, every player in the table, nobody listed twice. */
  predicate Playable(players: map<string, Player>, ranking: seq<string>) {
    && |ranking| > 0
    && (forall j :: 0 <= j < |ranking| ==> ranking[j] in players)
    && (forall j, k :: 0 <= j < k < |ranking| ==> ranking[j] != ranking[k])
  }

  ghost predicate AllWellFormed(players: map<string, Player>) {
    forall k :: k in players ==> WellFormed(players[k])
  }

  /** `SKILL - 3 * SKILL_DEVIATION`, the pessimistic rating the prediction compares. */
  function Conservative(p: Player): real {
    p.skill - 3.0 * p.deviation
  }

  /** Python's `max` of a non-empty list. */
  function MaxOf(s: seq<real>): (m: real)
    requires s != []
    ensures forall j :: 0 <= j < |s| ==> s[j] <= m
  {
    if |s| == 1 then s[0]
    else
      var m := MaxOf(s[..|s| - 1]);
      if s[|s| - 1] > m then s[|s| - 1] else m
  }

  /** The maximum is one of the elements. */
  lemma {:induction false} MaxOfAttained(s: seq<real>)
    requires s != []
    ensures exists j :: 0 <= j < |s| && s[j] == MaxOf(s)
  {
    if |s| > 1 {
      var init := s[..|s| - 1];
      MaxOfAttained(init);
      if s[|s| - 1] > MaxOf(init) {
        assert s[|s| - 1] == MaxOf(s);
      } else {
        var j :| 0 <= j < |init| && init[j] == MaxOf(init);
        assert s[j] == MaxOf(s);
      }
    } else {
      assert s[0] == MaxOf(s);
    }
  }

  /** The pessimistic ratings of the ranked players, first place first. */
  function RankingSkills(players: map<string, Player>, ranking: seq<string>): (r: seq<real>)
    requires forall j :: 0 <= j < |ranking| ==> ranking[j] in players
    ensures |r| == |ranking|
  {
    seq(|ranking|, j requires 0 <= j < |ranking| => Conservative(players[ranking[j]]))
  }

  /** The prediction of `processGame`: the winner had the largest pessimistic rating. */
  function Predicted(players: map<string, Player>, ranking: seq<string>): bool
    requires Playable(players, ranking)
  {
    var skills := RankingSkills(players, ranking);
    skills[0] == MaxOf(skills)
  }

  /** The result counts as predicted exactly when nobody had a higher pessimistic rating than the winner. */
  lemma PredictedIffWinnerBest(players: map<string, Player>, ranking: seq<string>)
    requires Playable(players, ranking)
    ensures Predicted(players, ranking) <==>
            forall j :: 0 <= j < |ranking| ==> Conservative(players[ranking[j]]) <= Conservative(players[ranking[0]])
  {
    var skills := RankingSkills(players, ranking);
    var m := MaxOf(skills);
    assert forall j :: 0 <= j < |ranking| ==> skills[j] == Conservative(players[ranking[j]]);
    if forall j :: 0 <= j < |ranking| ==> Conservative(players[ranking[j]]) <= Conservative(players[ranking[0]]) {
      MaxOfAttained(skills);
      var t :| 0 <= t < |skills| && skills[t] == m;
      assert skills[t] <= skills[0] <= m;
    }
  }

  /** The loop that diffuses and inflates each participant in turn. */
  function PrepareAll(players: map<string, Player>, ids: seq<string>, h: Hyper, fns: Numerics): (r: map<string, Player>)
    requires AllWellFormed(players) && 0.0 <= h.rho && fns.Valid()
    requires forall j :: 0 <= j < |ids| ==> ids[j] in players
    ensures r.Keys == players.Keys && AllWellFormed(r)
    decreases |ids|
  {
    if ids == [] then players
    else
      PreparedDeviation(players[ids[0]], h, fns);
      PrepareAll(players[ids[0] := Prepared(players[ids[0]], h, fns)], ids[1..], h, fns)
  }

  /** With nobody listed twice, each participant is prepared once and everybody else is left alone. */
  lemma {:induction false} PrepareAllSpec(players: map<string, Player>, ids: seq<string>, h: Hyper, fns: Numerics)
    requires AllWellFormed(players) && 0.0 <= h.rho && fns.Valid()
    requires forall j :: 0 <= j < |ids| ==> ids[j] in players
    requires forall j, k :: 0 <= j < k < |ids| ==> ids[j] != ids[k]
    ensures forall k :: k in players ==>
      PrepareAll(players, ids, h, fns)[k] == if k in ids then Prepared(players[k], h, fns) else players[k]
    decreases |ids|
  {
    if ids != [] {
      PreparedDeviation(players[ids[0]], h, fns);
      var next := players[ids[0] := Prepared(players[ids[0]], h, fns)];
      PrepareAllSpec(next, ids[1..], h, fns);
      assert forall k :: k in ids <==> k == ids[0] || k in ids[1..] by {
        assert ids == [ids[0]] + ids[1..];
      }
      assert ids[0] !in ids[1..];
    }
  }

  /** `[copy(players_table[id]) for id in RANKING]`: the participants' records, in ranking order. */
  function Snapshot(players: map<string, Player>, ids: seq<string>): (rs: seq<Player>)
    requires forall j :: 0 <= j < |ids| ==> ids[j] in players
  {
    seq(|ids|, j requires 0 <= j < |ids| => players[ids[j]])
  }

  ghost predicate AllWellFormedSeq(rs: seq<Player>) {
    forall j :: 0 <= j < |rs| ==> WellFormed(rs[j])
  }

  /** `new_dicts`: every participant updated against the same snapshot. */
  function Updates(rs: seq<Player>, beta: real, fns: Numerics): (r: seq<Player>)
    requires AllWellFormedSeq(rs) && beta != 0.0
  {
    seq(|rs|, i requires 0 <= i < |rs| => Updated(rs, i, beta, fns))
  }

  /** The loop that stores `new_dicts[i]` under `RANKING[i]`. */
  function WriteBack(players: map<string, Player>, ids: seq<string>, news: seq<Player>): map<string, Player>
    requires |ids| == |news|
    decreases |ids|
  {
    if ids == [] then players else WriteBack(players[ids[0] := news[0]], ids[1..], news[1..])
  }

  /** With nobody listed twice, `RANKING[i]` ends up holding `news[i]` and nobody else changes. */
  lemma {:induction false} WriteBackSpec(players: map<string, Player>, ids: seq<string>, news: seq<Player>)
    requires |ids| == |news|
    requires forall j, k :: 0 <= j < k < |ids| ==> ids[j] != ids[k]
    ensures forall k :: k in WriteBack(players, ids, news) <==> k in players || k in ids
    ensures forall j :: 0 <= j < |ids| ==> WriteBack(players, ids, news)[ids[j]] == news[j]
    ensures forall k :: k in players && k !in ids ==> WriteBack(players, ids, news)[k] == players[k]
    decreases |ids|
  {
    if ids != [] {
      WriteBackSpec(players[ids[0] := news[0]], ids[1..], news[1..]);
      var r := WriteBack(players, ids, news);
      assert forall k :: k in ids <==> k == ids[0] || k in ids[1..] by {
        assert ids == [ids[0]] + ids[1..];
      }
      assert forall j :: 0 <= j < |ids| ==> ids[j] in ids && ids[j] in r;
      forall j | 0 <= j < |ids| ensures r[ids[j]] == news[j] {
        if j > 0 {
          assert ids[1..][j - 1] == ids[j];
        } else {
          assert ids[0] !in ids[1..];
        }
      }
    }
  }

  /** The participants, each after diffusion and inflation, in ranking order. */
  function PreparedRanking(players: map<string, Player>, ranking: seq<string>, h: Hyper, fns: Numerics): (rs: seq<Player>)
    requires AllWellFormed(players) && 0.0 <= h.rho && fns.Valid()
    requires forall j :: 0 <= j < |ranking| ==> ranking[j] in players
    ensures AllWellFormedSeq(rs) && PositiveDeviations(rs)
  {
    PreparedAllWellFormed(players, ranking, h, fns);
    seq(|ranking|, j requires 0 <= j < |ranking| => Prepared(players[ranking[j]], h, fns))
  }

  lemma PreparedAllWellFormed(players: map<string, Player>, ranking: seq<string>, h: Hyper, fns: Numerics)
    requires AllWellFormed(players) && 0.0 <= h.rho && fns.Valid()
    requires forall j :: 0 <= j < |ranking| ==> ranking[j] in players
    ensures AllWellFormedSeq(seq(|ranking|, j requires 0 <= j < |ranking| => Prepared(players[ranking[j]], h, fns)))
  {
    forall j | 0 <= j < |ranking| ensures WellFormed(Prepared(players[ranking[j]], h, fns)) {
      PreparedDeviation(players[ranking[j]], h, fns);
    }
  }

  /** The players table after `processGame`. */
  function AfterGame(players: map<string, Player>, ranking: seq<string>, h: Hyper, fns: Numerics): (r: map<string, Player>)
    requires AllWellFormed(players) && Playable(players, ranking) && ValidHyper(h) && fns.Valid()
    ensures r.Keys == players.Keys && AllWellFormed(r)
  {
    var prepared := PrepareAll(players, ranking, h, fns);
    var snapshot := Snapshot(prepared, ranking);
    var news := Updates(snapshot, h.beta, fns);
    AfterGameShape(prepared, ranking, snapshot, news, h.beta, fns);
    WriteBack(prepared, ranking, news)
  }

  lemma AfterGameShape(prepared: map<string, Player>, ranking: seq<string>, snapshot: seq<Player>, news: seq<Player>,
                       beta: real, fns: Numerics)
    requires AllWellFormed(prepared) && Playable(prepared, ranking) && beta != 0.0
    requires snapshot == Snapshot(prepared, ranking)
    requires AllWellFormedSeq(snapshot) && news == Updates(snapshot, beta, fns)
    ensures WriteBack(prepared, ranking, news).Keys == prepared.Keys
    ensures AllWellFormed(WriteBack(prepared, ranking, news))
  {
    WriteBackSpec(prepared, ranking, news);
    forall i | 0 <= i < |ranking| ensures WellFormed(news[i]) {
      UpdatedSpec(snapshot, i, beta, fns);
    }
    var r := WriteBack(prepared, ranking, news);
    forall k | k in r ensures WellFormed(r[k]) {
      if k in ranking {
        var i :| 0 <= i < |ranking| && ranking[i] == k;
      }
    }
  }

  /**
   * `processGame` on the players table: the participant at place `i` becomes
   * `update` of the ranking of diffused and inflated participants, and
   * every other player is left alone.
   */
  lemma AfterGameSpec(players: map<string, Player>, ranking: seq<string>, h: Hyper, fns: Numerics)
    requires AllWellFormed(players) && Playable(players, ranking) && ValidHyper(h) && fns.Valid()
    ensures forall i :: 0 <= i < |ranking| ==>
      AfterGame(players, ranking, h, fns)[ranking[i]] == Updated(PreparedRanking(players, ranking, h, fns), i, h.beta, fns)
    ensures forall k :: k in players && k !in ranking ==> AfterGame(players, ranking, h, fns)[k] == players[k]
  {
    var prepared := PrepareAll(players, ranking, h, fns);
    var rs := PreparedRanking(players, ranking, h, fns);
    var news := Updates(rs, h.beta, fns);
    SnapshotPrepared(players, ranking, h, fns);
    assert AfterGame(players, ranking, h, fns) == WriteBack(prepared, ranking, news);
    WriteBackSpec(prepared, ranking, news);
    forall i | 0 <= i < |ranking| ensures news[i] == Updated(rs, i, h.beta, fns) {
    }
    forall k | k in players && k !in ranking ensures prepared[k] == players[k] {
      PrepareAllSpec(players, ranking, h, fns);
    }
  }

  /** The copies `processGame` hands to `update` are the diffused and inflated participants. */
  lemma SnapshotPrepared(players: map<string, Player>, ranking: seq<string>, h: Hyper, fns: Numerics)
    requires AllWellFormed(players) && Playable(players, ranking) && ValidHyper(h) && fns.Valid()
    ensures Snapshot(PrepareAll(players, ranking, h, fns), ranking) == PreparedRanking(players, ranking, h, fns)
  {
    PrepareAllSpec(players, ranking, h, fns);
    var a, b := Snapshot(PrepareAll(players, ranking, h, fns), ranking), PreparedRanking(players, ranking, h, fns);
    forall j | 0 <= j < |ranking| ensures a[j] == b[j] {
      assert ranking[j] in ranking;
    }
  }

  /**
   * What a participant's record looks like after the game: σ'² = σ²/κ + β²
   * (so the deviation never shrinks), the diffused histories with the new
   * performance and its weight 1/β² appended, the same games, and a skill
   * inside the search interval.
   */
  lemma ParticipantAfterGame(players: map<string, Player>, ranking: seq<string>, h: Hyper, fns: Numerics, i: nat)
    requires AllWellFormed(players) && Playable(players, ranking) && ValidHyper(h) && fns.Valid()
    requires i < |ranking|
    ensures var p := players[ranking[i]];
      var q := AfterGame(players, ranking, h, fns)[ranking[i]];
      && q.deviation == Prepared(p, h, fns).deviation
      && q.perfHistory == Diffused(p, h, fns).perfHistory + [PerfEstimation(PreparedRanking(players, ranking, h, fns), i, fns)]
      && q.perfWeight == Diffused(p, h, fns).perfWeight + [1.0 / (h.beta * h.beta)]
      && q.games == p.games
      && Utils.Lower <= q.skill < Utils.Upper
  {
    var rs := PreparedRanking(players, ranking, h, fns);
    AfterGameSpec(players, ranking, h, fns);
    PreparedThenUpdated(rs, i, players[ranking[i]], h, fns);
  }

  lemma PreparedThenUpdated(rs: seq<Player>, i: nat, p: Player, h: Hyper, fns: Numerics)
    requires WellFormed(p) && ValidHyper(h) && fns.Valid()
    requires i < |rs| && PositiveDeviations(rs) && WellFormed(rs[i]) && rs[i] == Prepared(p, h, fns)
    ensures var q := Updated(rs, i, h.beta, fns);
      && q.deviation == Prepared(p, h, fns).deviation
      && q.perfHistory == Diffused(p, h, fns).perfHistory + [PerfEstimation(rs, i, fns)]
      && q.perfWeight == Diffused(p, h, fns).perfWeight + [1.0 / (h.beta * h.beta)]
      && q.games == p.games
      && Utils.Lower <= q.skill < Utils.Upper
  {
    UpdatedSpec(rs, i, h.beta, fns);
  }

  /** The loop of `processGame` that diffuses and inflates the participants one after the other. */
  method PrepareParticipants(players: map<string, Player>, ranking: seq<string>, h: Hyper, fns: Numerics)
    returns (table: map<string, Player>)
    requires AllWellFormed(players) && 0.0 <= h.rho && fns.Valid()
    requires forall j :: 0 <= j < |ranking| ==> ranking[j] in players
    ensures table == PrepareAll(players, ranking, h, fns)
  {
    table := players;
    for i := 0 to |ranking|
      invariant AllWellFormed(table) && table.Keys == players.Keys
      invariant PrepareAll(table, ranking[i..], h, fns) == PrepareAll(players, ranking, h, fns)
    {
      assert ranking[i..][0] == ranking[i] && ranking[i..][1..] == ranking[i + 1..];
      var p := Diffuse(table[ranking[i]], h, fns);
      p := p.(deviation := fns.sqrt(SumOfSquares(p.deviation, h.beta)));
      PreparedDeviation(table[ranking[i]], h, fns);
      table := table[ranking[i] := p];
    }
  }

  /** The loop of `processGame` that updates every participant against a fresh copy of the ranking. */
  method UpdateParticipants(table: map<string, Player>, ranking: seq<string>, beta: real, fns: Numerics)
    returns (newDicts: seq<Player>)
    requires forall j :: 0 <= j < |ranking| ==> ranking[j] in table
    requires AllWellFormedSeq(Snapshot(table, ranking)) && beta != 0.0
    ensures newDicts == Updates(Snapshot(table, ranking), beta, fns)
  {
    newDicts := [];
    ghost var snapshot := Snapshot(table, ranking);
    for i := 0 to |ranking|
      invariant newDicts == Updates(snapshot, beta, fns)[..i]
    {
      var copies := Snapshot(table, ranking);
      var updated := Update(copies, i, beta, fns);
      UpdatesPrefix(snapshot, i, beta, fns);
      newDicts := newDicts + [updated];
    }
    assert Updates(snapshot, beta, fns)[..|ranking|] == Updates(snapshot, beta, fns);
  }

  lemma UpdatesPrefix(rs: seq<Player>, i: nat, beta: real, fns: Numerics)
    requires AllWellFormedSeq(rs) && beta != 0.0 && i < |rs|
    ensures PositiveDeviations(rs) && WellFormed(rs[i])
    ensures Updates(rs, beta, fns)[..i + 1] == Updates(rs, beta, fns)[..i] + [Updated(rs, i, beta, fns)]
  {
    var us := Updates(rs, beta, fns);
    assert us[..i + 1] == us[..i] + [us[i]];
  }

  /** The loop of `processGame` that stores the updated records. */
  method ApplyUpdates(table: map<string, Player>, ranking: seq<string>, newDicts: seq<Player>)
    returns (updated: map<string, Player>)
    requires |ranking| == |newDicts|
    ensures updated == WriteBack(table, ranking, newDicts)
  {
    updated := table;
    for i := 0 to |ranking|
      invariant WriteBack(updated, ranking[i..], newDicts[i..]) == WriteBack(table, ranking, newDicts)
    {
      assert ranking[i..][1..] == ranking[i + 1..] && newDicts[i..][1..] == newDicts[i + 1..];
      updated := updated[ranking[i] := newDicts[i]];
    }
  }

  // ---------------------------------------------------------------------
  // Replaying the games table
  // ---------------------------------------------------------------------

  /**
   * Every game's key is its ID, every player record is well formed, and
   * every game still to be processed has a playable ranking.
   */
  ghost predicate Consistent(games: Dict<Game>, players: map<string, Player>) {
    && games.Valid()
    && AllWellFormed(players)
    && (forall k :: k in games.items ==>
          games.items[k].id == k && (!games.items[k].processed ==> Playable(players, games.items[k].ranking)))
  }

  /** Every game of the table is marked processed. */
  ghost predicate AllProcessed(games: Dict<Game>) {
    forall k :: k in games.items ==> games.items[k].processed
  }

  /** Processing one playable game keeps the tables consistent. */
  lemma NextConsistent(games: Dict<Game>, players: map<string, Player>, id: string, h: Hyper, fns: Numerics)
    requires ValidHyper(h) && fns.Valid()
    requires Consistent(games, players)
    requires id in games.items && Playable(players, games.items[id].ranking)
    ensures var g := games.items[id];
      Consistent(games.Put(id, g.(processed := true)), AfterGame(players, g.ranking, h, fns))
  {
    var g := games.items[id];
    var next := AfterGame(players, g.ranking, h, fns);
    var nextGames := games.Put(id, g.(processed := true));
    forall k | k in nextGames.items && !nextGames.items[k].processed
      ensures Playable(next, nextGames.items[k].ranking)
    {
      assert k != id && nextGames.items[k] == games.items[k];
    }
  }

  /**
   * The MMR engine as the loop of `processGames` sees it: `processGame` on
   * the players table and its prediction, for the given hyperparameters.
   */
  ghost function Engine(h: Hyper, fns: Numerics): (e: Replays.Engine<Game, Player>)
    requires ValidHyper(h) && fns.Valid()
    ensures Replays.Sound(e)
    ensures forall players, g: Game :: AllWellFormed(players) && Playable(players, g.ranking) ==>
      e.step(players, g) == AfterGame(players, g.ranking, h, fns) && (e.predicted(players, g) <==> Predicted(players, g.ranking))
  {
    var e := Replays.Engine(
      GameId, GameDate,
      (g: Game) => g.processed,
      (g: Game) => g.(processed := true),
      (games: Dict<Game>, players: map<string, Player>) => Consistent(games, players),
      (players: map<string, Player>, g: Game) =>
        if AllWellFormed(players) && Playable(players, g.ranking) then AfterGame(players, g.ranking, h, fns) else players,
      (players: map<string, Player>, g: Game) => Playable(players, g.ranking) && Predicted(players, g.ranking));
    assert Replays.Sound(e) by {
      forall games: Dict<Game>, players: map<string, Player>, k: string
        ensures Replays.StepKeepsConsistent(e, games, players, k)
      {
        if Consistent(games, players) && k in games.items && !games.items[k].processed {
          NextConsistent(games, players, k, h, fns);
        }
      }
    }
    e
  }

  /** `predicted_output / total_processed_games`: no value when no game was processed (division by zero). */
  function SuccessRate(total: nat, correct: nat): Option<real> {
    if total == 0 then None else Some(correct as real / total as real)
  }

  /** A share of at most all games lies in [0, 1]. */
  lemma FractionBounds(total: nat, correct: nat)
    requires correct <= total
    ensures SuccessRate(total, correct).Some? ==> 0.0 <= SuccessRate(total, correct).value <= 1.0
  {
    if total != 0 {
      assert (correct as real) / (total as real) <= (total as real) / (total as real);
    }
  }

  /**
   * The division at the end of `processGames` has a value exactly when some
   * game was still unprocessed, and the value then lies in [0, 1].
   */
  lemma RateDefinedIffPending(games: Dict<Game>, players: map<string, Player>, h: Hyper, fns: Numerics)
    requires ValidHyper(h) && fns.Valid()
    requires Consistent(games, players)
    ensures var r := Replays.ProcessAll(Engine(h, fns), games, players);
      && (SuccessRate(r.total, r.correct).None? <==> AllProcessed(games))
      && (SuccessRate(r.total, r.correct).Some? ==> 0.0 <= SuccessRate(r.total, r.correct).value <= 1.0)
  {
    var r := Replays.ProcessAll(Engine(h, fns), games, players);
    Replays.ProcessAllMarksEveryGame(Engine(h, fns), games, players);
    FractionBounds(r.total, r.correct);
  }

  /** A second `processGames` right after the first divides by zero and changes no table. */
  lemma SecondRunFails(games: Dict<Game>, players: map<string, Player>, h: Hyper, fns: Numerics)
    requires ValidHyper(h) && fns.Valid()
    requires Consistent(games, players)
    ensures var r := Replays.ProcessAll(Engine(h, fns), games, players);
      var r2 := Replays.ProcessAll(Engine(h, fns), r.games, r.players);
      r2.games == r.games && r2.players == r.players && SuccessRate(r2.total, r2.correct) == None
  {
    Replays.SecondRunIdle(Engine(h, fns), games, players);
  }

  /** `RANKING[j]` appears `n` times in the ranking: the game's ID is appended `n` times to that player's games. */
  function Joined(players: map<string, Player>, ranking: seq<string>, id: string): map<string, Player>
    requires forall j :: 0 <= j < |ranking| ==> ranking[j] in players
    decreases |ranking|
  {
    if ranking == [] then players
    else
      var p := players[ranking[0]];
      Joined(players[ranking[0] := p.(games := p.games + [id])], ranking[1..], id)
  }

  /** `n` copies of `id`. */
  function Repeat(id: string, n: nat): (r: seq<string>)
    ensures |r| == n && forall j :: 0 <= j < n ==> r[j] == id
  {
    seq(n, _ => id)
  }

  /** `createGame` on the players table: each player gets the ID once per place in the ranking; nothing else changes. */
  lemma {:induction false} JoinedSpec(players: map<string, Player>, ranking: seq<string>, id: string)
    requires forall j :: 0 <= j < |ranking| ==> ranking[j] in players
    ensures Joined(players, ranking, id).Keys == players.Keys
    ensures forall k :: k in players ==>
      Joined(players, ranking, id)[k] == players[k].(games := players[k].games + Repeat(id, multiset(ranking)[k]))
    decreases |ranking|
  {
    if ranking != [] {
      var p := players[ranking[0]];
      var next := players[ranking[0] := p.(games := p.games + [id])];
      JoinedSpec(next, ranking[1..], id);
      assert ranking == [ranking[0]] + ranking[1..];
      assert multiset(ranking) == multiset{ranking[0]} + multiset(ranking[1..]);
      assert Joined(players, ranking, id) == Joined(next, ranking[1..], id);
      forall k | k in players
        ensures Joined(players, ranking, id)[k] == players[k].(games := players[k].games + Repeat(id, multiset(ranking)[k]))
      {
        var later := multiset(ranking[1..])[k];
        if k == ranking[0] {
          assert multiset(ranking)[k] == later + 1;
          assert [id] + Repeat(id, later) == Repeat(id, later + 1);
          assert next[k].games + Repeat(id, later) == players[k].games + Repeat(id, later + 1);
        } else {
          assert multiset(ranking)[k] == later;
          assert next[k] == players[k];
        }
      }
    }
  }

  /** A new game with a playable ranking keeps the tables consistent. */
  lemma CreatedConsistent(games: Dict<Game>, players: map<string, Player>, id: string, date: string, ranking: seq<string>)
    requires Consistent(games, players) && Playable(players, ranking)
    ensures Consistent(games.Put(id, Game(id, date, ranking, false)), Joined(players, ranking, id))
  {
    JoinedSpec(players, ranking, id);
  }

  // ---------------------------------------------------------------------
  // The database
  // ---------------------------------------------------------------------

  /** The in-memory `GAMES` and `PLAYERS` tables, updated in place. */
  class Database {
    var games: Dict<Game>
    var players: map<string, Player>

    constructor(games: Dict<Game>, players: map<string, Player>)
      ensures this.games == games && this.players == players
    {
      this.games := games;
      this.players := players;
    }

    /** `processGame`: the prediction, then diffusion, the parallel update and the write-back; marks the game processed. */
    method ProcessGame(id: string, h: Hyper, fns: Numerics) returns (predicted: bool)
      requires ValidHyper(h) && fns.Valid()
      requires Consistent(games, players)
      requires id in games.items && Playable(players, games.items[id].ranking)
      modifies this
      ensures players == AfterGame(old(players), old(games.items[id]).ranking, h, fns)
      ensures games == old(games).Put(id, old(games.items[id]).(processed := true))
      ensures predicted == Predicted(old(players), old(games.items[id]).ranking)
      ensures Consistent(games, players)
    {
      var g := games.items[id];
      var ranking := g.ranking;
      var rankingSkills := RankingSkills(players, ranking);
      predicted := rankingSkills[0] == MaxOf(rankingSkills);

      var table := PrepareParticipants(players, ranking, h, fns);
      SnapshotPrepared(players, ranking, h, fns);
      var newDicts := UpdateParticipants(table, ranking, h.beta, fns);
      table := ApplyUpdates(table, ranking, newDicts);

      players := table;
      games := games.Put(id, g.(processed := true));
      NextConsistent(old(games), old(players), id, h, fns);
    }

    /** One iteration of the loop of `processGames`: the game `id` is processed unless it already was. */
    method ProcessPending(id: string, h: Hyper, fns: Numerics) returns (counted: bool, predicted: bool)
      requires ValidHyper(h) && fns.Valid()
      requires Consistent(games, players) && id in games.items
      modifies this
      ensures var g := old(games.items[id]);
        && counted == !g.processed
        && (g.processed ==> games == old(games) && players == old(players) && !predicted)
        && (!g.processed ==>
              && games == old(games).Put(id, g.(processed := true))
              && players == AfterGame(old(players), g.ranking, h, fns)
              && predicted == Predicted(old(players), g.ranking))
    {
      counted, predicted := false, false;
      if !games.items[id].processed {
        counted := true;
        predicted := ProcessGame(id, h, fns);
      }
    }

    /** The loop of `processGames` over the game IDs `ids`, returning its two counters. */
    method ProcessInOrder(ids: seq<string>, h: Hyper, fns: Numerics) returns (total: nat, correct: nat)
      requires ValidHyper(h) && fns.Valid()
      requires Replays.CanReplay(Engine(h, fns), games, players, ids)
      modifies this
      ensures var r := Replays.ReplayFrom(Engine(h, fns), old(games), old(players), ids, 0, 0);
        games == r.games && players == r.players && total == r.total && correct == r.correct
    {
      total, correct := 0, 0;
      ghost var e := Engine(h, fns);
      ghost var goal := Replays.ReplayFrom(e, games, players, ids, 0, 0);
      for i := 0 to |ids|
        invariant Replays.CanReplay(e, games, players, ids[i..])
        invariant Replays.ReplayFrom(e, games, players, ids[i..], total, correct) == goal
      {
        Replays.ReplayStep(e, games, players, ids[i..], total, correct);
        assert ids[i..][1..] == ids[i + 1..];
        var counted, predicted := ProcessPending(ids[i], h, fns);
        total := total + (if counted then 1 else 0);
        correct := correct + (if predicted then 1 else 0);
      }
    }

    /**
     * `processGames`: replays the unprocessed games in date order and
     * returns the share of predicted results, or nothing when no game was
     * left to process.
     */
    method ProcessGames(h: Hyper, fns: Numerics) returns (successRate: Option<real>)
      requires ValidHyper(h) && fns.Valid()
      requires Consistent(games, players)
      modifies this
      ensures var r := Replays.ProcessAll(Engine(h, fns), old(games), old(players));
        games == r.games && players == r.players && successRate == SuccessRate(r.total, r.correct)
    {
      var ids := General.OrderGamesTable(games, GameDate, GameId);
      Replays.OrderedIdsReplayable(Engine(h, fns), games, players);
      var totalProcessedGames, predictedOutput := ProcessInOrder(ids, h, fns);
      if totalProcessedGames == 0 {
        successRate := None;
      } else {
        successRate := Some(predictedOutput as real / totalProcessedGames as real);
      }
    }

    /** `createGame`: stores the new game, unprocessed, and appends its ID to the games of every ranked player. */
    method CreateGame(id: string, date: string, ranking: seq<string>)
      requires games.Valid()
      requires forall j :: 0 <= j < |ranking| ==> ranking[j] in players
      modifies this
      ensures games == old(games).Put(id, Game(id, date, ranking, false))
      ensures players == Joined(old(players), ranking, id)
    {
      games := games.Put(id, Game(id, date, ranking, false));
      var table := players;
      for i := 0 to |ranking|
        invariant table.Keys == old(players).Keys
        invariant Joined(table, ranking[i..], id) == Joined(old(players), ranking, id)
      {
        assert ranking[i..][0] == ranking[i] && ranking[i..][1..] == ranking[i + 1..];
        var p := table[ranking[i]];
        table := table[ranking[i] := p.(games := p.games + [id])];
      }
      players := table;
    }
  }

  // ---------------------------------------------------------------------
  // Hyperparameter search
  // ---------------------------------------------------------------------

  /**
   * The row the search stores for one configuration, replayed on the given
   * tables; nothing when the replay has no game to process, where the
   * source's division by zero raises.
   */
  ghost function Evaluation(gamma: real, beta: real, rho: real, games: Dict<Game>, players: map<string, Player>,
                            fns: Numerics): (r: Option<Configuration>)
    requires ValidHyper(Hyper(gamma, beta, rho)) && fns.Valid()
    requires Consistent(games, players)
    ensures r.None? <==> AllProcessed(games)
    ensures r.Some? ==> && r.value.temporalDiffusion == gamma && r.value.performanceDeviation == beta
                        && r.value.inverseMomentum == rho && 0.0 <= r.value.successRate <= 1.0
  {
    RateDefinedIffPending(games, players, Hyper(gamma, beta, rho), fns);
    var replay := Replays.ProcessAll(Engine(Hyper(gamma, beta, rho), fns), games, players);
    match SuccessRate(replay.total, replay.correct)
    case None => None
    case Some(rate) => Some(Configuration(gamma, beta, rho, rate))
  }

  /** `Evaluation` on fixed tables, as a function of the three hyperparameters. */
  ghost function Evaluator(games: Dict<Game>, players: map<string, Player>, fns: Numerics)
    : (evaluate: (real, real, real) -> Option<Configuration>)
    requires fns.Valid() && Consistent(games, players)
    ensures forall gamma, beta, rho :: ValidHyper(Hyper(gamma, beta, rho)) ==>
              evaluate(gamma, beta, rho) == Evaluation(gamma, beta, rho, games, players, fns)
  {
    (gamma: real, beta: real, rho: real) =>
      if ValidHyper(Hyper(gamma, beta, rho)) then Evaluation(gamma, beta, rho, games, players, fns) else None
  }

  /** Every γ, β and ρ of the three ranges is a valid choice. */
  predicate ValidRanges(gammas: seq<real>, betas: seq<real>, rhos: seq<real>) {
    && (forall j :: 0 <= j < |betas| ==> betas[j] != 0.0)
    && (forall l :: 0 <= l < |rhos| ==> 0.0 <= rhos[l])
  }

  /** `row`, stored under `key`, is the evaluation of a point of the grid whose key is `key`. */
  ghost predicate GridRow(key: string, row: Configuration, gammas: seq<real>, betas: seq<real>, rhos: seq<real>,
                          configKey: (real, real, real) -> string, evaluate: (real, real, real) -> Option<Configuration>)
  {
    exists i, j, l :: 0 <= i < |gammas| && 0 <= j < |betas| && 0 <= l < |rhos| &&
      configKey(gammas[i], betas[j], rhos[l]) == key && evaluate(gammas[i], betas[j], rhos[l]) == Some(row)
  }

  /** Every row not in `configurations` was evaluated at a grid point with its key. */
  ghost predicate NewRowsFromGrid(table: Dict<Configuration>, configurations: Dict<Configuration>,
                                  gammas: seq<real>, betas: seq<real>, rhos: seq<real>,
                                  configKey: (real, real, real) -> string,
                                  evaluate: (real, real, real) -> Option<Configuration>)
  {
    forall k :: k in table.items && k !in configurations.items ==>
      GridRow(k, table.items[k], gammas, betas, rhos, configKey, evaluate)
  }

  /** Grid point `(a, b, d)` comes before `(i, j, l)` in the order of the three nested loops. */
  predicate Before(a: nat, b: nat, d: nat, i: nat, j: nat, l: nat) {
    a < i || (a == i && (b < j || (b == j && d < l)))
  }

  /** Every grid point before `(i, j, l)` has its key in the table. */
  ghost predicate CoveredUpTo(table: Dict<Configuration>, gammas: seq<real>, betas: seq<real>, rhos: seq<real>,
                              configKey: (real, real, real) -> string, i: nat, j: nat, l: nat) {
    forall a, b, d :: 0 <= a < |gammas| && 0 <= b < |betas| && 0 <= d < |rhos| && Before(a, b, d, i, j, l) ==>
      configKey(gammas[a], betas[b], rhos[d]) in table.items
  }

  /**
   * One iteration of the search: unless its key is already in the table,
   * evaluates the configuration on a fresh copy of the tables and stores its
   * row; `ok` is false when that evaluation raises.
   */
  method EvaluateIfAbsent(table: Dict<Configuration>, gamma: real, beta: real, rho: real,
                          freshGames: Dict<Game>, freshPlayers: map<string, Player>,
                          configKey: (real, real, real) -> string, fns: Numerics)
    returns (updated: Dict<Configuration>, ok: bool)
    requires ValidHyper(Hyper(gamma, beta, rho)) && fns.Valid()
    requires table.Valid()
    requires Consistent(freshGames, freshPlayers)
    ensures var key := configKey(gamma, beta, rho);
      && Extends(updated, table)
      && (ok <==> key in updated.items)
      && (!ok ==> updated == table && AllProcessed(freshGames))
      && (AllProcessed(freshGames) ==> updated == table)
      && (forall k :: k in updated.items && k !in table.items ==>
            k == key && Some(updated.items[k]) == Evaluation(gamma, beta, rho, freshGames, freshPlayers, fns))
  {
    var configId := configKey(gamma, beta, rho);
    updated, ok := table, true;
    if configId !in table.items {
      var db := new Database(freshGames, freshPlayers);
      var successRate := db.ProcessGames(Hyper(gamma, beta, rho), fns);
      ghost var expected := Evaluation(gamma, beta, rho, freshGames, freshPlayers, fns);
      if successRate.None? {
        ok := false;
      } else {
        updated := table.Put(configId, Configuration(gamma, beta, rho, successRate.value));
        assert updated.order[..|table.order|] == table.order;
      }
    }
  }

  /** One call of `EvaluateIfAbsent` at grid point `(i, j, l)` keeps the rows invariants. */
  lemma GridStep(before: Dict<Configuration>, table: Dict<Configuration>, configurations: Dict<Configuration>,
                 gammas: seq<real>, betas: seq<real>, rhos: seq<real>, configKey: (real, real, real) -> string,
                 evaluate: (real, real, real) -> Option<Configuration>, i: nat, j: nat, l: nat)
    requires i < |gammas| && j < |betas| && l < |rhos|
    requires Extends(before, configurations)
    requires NewRowsFromGrid(before, configurations, gammas, betas, rhos, configKey, evaluate)
    requires && Extends(table, before)
             && (forall k :: k in table.items && k !in before.items ==>
                   k == configKey(gammas[i], betas[j], rhos[l]) && Some(table.items[k]) == evaluate(gammas[i], betas[j], rhos[l]))
    ensures Extends(table, configurations)
    ensures NewRowsFromGrid(table, configurations, gammas, betas, rhos, configKey, evaluate)
  {
    assert table.order[..|configurations.order|] == table.order[..|before.order|][..|configurations.order|];
    forall k | k in table.items && k !in configurations.items
      ensures GridRow(k, table.items[k], gammas, betas, rhos, configKey, evaluate)
    {
      if k in before.items {
        assert GridRow(k, before.items[k], gammas, betas, rhos, configKey, evaluate);
      } else {
        assert configKey(gammas[i], betas[j], rhos[l]) == k;
      }
    }
  }

  /** A table holding the key of grid point `(i, j, l)` covers the points up to and including it. */
  lemma GridCovered(before: Dict<Configuration>, table: Dict<Configuration>,
                    gammas: seq<real>, betas: seq<real>, rhos: seq<real>, configKey: (real, real, real) -> string,
                    i: nat, j: nat, l: nat)
    requires i < |gammas| && j < |betas| && l < |rhos|
    requires CoveredUpTo(before, gammas, betas, rhos, configKey, i, j, l)
    requires before.items.Keys <= table.items.Keys
    requires configKey(gammas[i], betas[j], rhos[l]) in table.items
    ensures CoveredUpTo(table, gammas, betas, rhos, configKey, i, j, l + 1)
  {
  }

  /** Finishing the innermost loop covers the next `β`, finishing the middle one the next `γ`. */
  lemma CoveredNext(table: Dict<Configuration>, gammas: seq<real>, betas: seq<real>, rhos: seq<real>,
                    configKey: (real, real, real) -> string, i: nat, j: nat)
    ensures CoveredUpTo(table, gammas, betas, rhos, configKey, i, j, |rhos|) ==>
              CoveredUpTo(table, gammas, betas, rhos, configKey, i, j + 1, 0)
    ensures CoveredUpTo(table, gammas, betas, rhos, configKey, i, |betas|, 0) ==>
              CoveredUpTo(table, gammas, betas, rhos, configKey, i + 1, 0, 0)
  {
  }

  /**
   * The innermost loop of `optimizeHyperparameters`: every ρ of the range at
   * the grid's `γ` number `i` and `β` number `j`.
   */
  method SearchRhos(configurations: Dict<Configuration>, table: Dict<Configuration>,
                    gammas: seq<real>, betas: seq<real>, rhos: seq<real>, i: nat, j: nat,
                    freshGames: Dict<Game>, freshPlayers: map<string, Player>,
                    configKey: (real, real, real) -> string, fns: Numerics)
    returns (updated: Dict<Configuration>, completed: bool)
    requires i < |gammas| && j < |betas|
    requires ValidRanges(gammas, betas, rhos) && fns.Valid()
    requires Consistent(freshGames, freshPlayers)
    requires Extends(table, configurations)
    requires CoveredUpTo(table, gammas, betas, rhos, configKey, i, j, 0)
    requires NewRowsFromGrid(table, configurations, gammas, betas, rhos, configKey, Evaluator(freshGames, freshPlayers, fns))
    requires AllProcessed(freshGames) ==> table == configurations
    ensures Extends(updated, configurations)
    ensures NewRowsFromGrid(updated, configurations, gammas, betas, rhos, configKey, Evaluator(freshGames, freshPlayers, fns))
    ensures AllProcessed(freshGames) ==> updated == configurations
    ensures completed ==> CoveredUpTo(updated, gammas, betas, rhos, configKey, i, j + 1, 0)
    ensures !completed ==>
              && AllProcessed(freshGames)
              && exists l :: 0 <= l < |rhos| && configKey(gammas[i], betas[j], rhos[l]) !in configurations.items
  {
    ghost var evaluate := Evaluator(freshGames, freshPlayers, fns);
    updated, completed := table, true;
    for l := 0 to |rhos|
      invariant Extends(updated, configurations)
      invariant CoveredUpTo(updated, gammas, betas, rhos, configKey, i, j, l)
      invariant NewRowsFromGrid(updated, configurations, gammas, betas, rhos, configKey, evaluate)
      invariant AllProcessed(freshGames) ==> updated == configurations
    {
      ghost var before := updated;
      var ok;
      updated, ok := EvaluateIfAbsent(updated, gammas[i], betas[j], rhos[l], freshGames, freshPlayers, configKey, fns);
      if !ok {
        completed := false;
        return;
      }
      GridStep(before, updated, configurations, gammas, betas, rhos, configKey, evaluate, i, j, l);
      GridCovered(before, updated, gammas, betas, rhos, configKey, i, j, l);
    }
    CoveredNext(updated, gammas, betas, rhos, configKey, i, j);
  }

  /**
   * `optimizeHyperparameters`: for every γ, β and ρ of the three ranges,
   * evaluates the configuration unless its key is already in the
   * configuration table. Existing rows are kept as they are and new rows go
   * last. The search stops early (`completed` false) when an evaluation
   * raises, which happens exactly when the fresh games are all processed
   * already; the table is then the one it started from.
   */
  method OptimizeHyperparameters(configurations: Dict<Configuration>, gammas: seq<real>, betas: seq<real>,
                                 rhos: seq<real>, freshGames: Dict<Game>, freshPlayers: map<string, Player>,
                                 configKey: (real, real, real) -> string, fns: Numerics)
    returns (table: Dict<Configuration>, completed: bool)
    requires ValidRanges(gammas, betas, rhos) && fns.Valid()
    requires configurations.Valid()
    requires Consistent(freshGames, freshPlayers)
    ensures Extends(table, configurations)
    ensures forall k :: k in table.items && k !in configurations.items ==>
              GridRow(k, table.items[k], gammas, betas, rhos, configKey, Evaluator(freshGames, freshPlayers, fns))
    ensures completed ==>
              forall i, j, l :: 0 <= i < |gammas| && 0 <= j < |betas| && 0 <= l < |rhos| ==>
                configKey(gammas[i], betas[j], rhos[l]) in table.items
    ensures !completed ==>
              && table == configurations && AllProcessed(freshGames)
              && exists i, j, l :: 0 <= i < |gammas| && 0 <= j < |betas| && 0 <= l < |rhos| &&
                   configKey(gammas[i], betas[j], rhos[l]) !in configurations.items
  {
    table, completed := configurations, true;
    for i := 0 to |gammas|
      invariant Extends(table, configurations)
      invariant CoveredUpTo(table, gammas, betas, rhos, configKey, i, 0, 0)
      invariant NewRowsFromGrid(table, configurations, gammas, betas, rhos, configKey, Evaluator(freshGames, freshPlayers, fns))
      invariant AllProcessed(freshGames) ==> table == configurations
    {
      for j := 0 to |betas|
        invariant Extends(table, configurations)
        invariant CoveredUpTo(table, gammas, betas, rhos, configKey, i, j, 0)
        invariant NewRowsFromGrid(table, configurations, gammas, betas, rhos, configKey, Evaluator(freshGames, freshPlayers, fns))
        invariant AllProcessed(freshGames) ==> table == configurations
      {
        table, completed := SearchRhos(configurations, table, gammas, betas, rhos, i, j,
                                       freshGames, freshPlayers, configKey, fns);
        if !completed {
          return;
        }
      }
      CoveredNext(table, gammas, betas, rhos, configKey, i, |betas|);
    }
  }
}
