/** The gamma amplifier note.

    The note is switched on at every step whose price lies in the closed band
    `[K - delta, K + delta]`; each such step earns the (abstract, Black-Scholes)
    gamma at that price and time, times the amplification factor, times the
    square of the step's relative price change.  The holder pays a fixed cost
    factor.  The backtest puts, for each path, the note's return beside a
    plain long straddle's return and a few path statistics.

    The gamma function and the straddle's initial (Black-Scholes) cost are
    parameters; the price paths are inputs. */
module GammaNote {
  import opened Common

  /** The parameters the payoff reads: band centre and half-width,
      amplification factor, cost factor and the time step. */
  datatype GanTerms = GanTerms(k: real, delta: real, amplification: real, costFactor: real, dt: real)

  function Abs(x: real): real
  {
    if x < 0.0 then -x else x
  }

  /** The activation band, both ends included. */
  predicate InBand(g: GanTerms, price: real)
  {
    g.k - g.delta <= price <= g.k + g.delta
  }

  /** The band is the set of prices within `delta` of `K`; it is empty when
      `delta` is negative. */
  lemma InBandIsDistance(g: GanTerms, price: real)
    ensures InBand(g, price) <==> Abs(price - g.k) <= g.delta
    ensures g.delta < 0.0 ==> !InBand(g, price)
  {
  }

  /** Some step `t` with `1 <= t < n` is in the band (the price at index 0 is
      never judged). */
  predicate ActivatedUpTo(g: GanTerms, path: seq<real>, n: nat)
    requires n <= |path|
  {
    exists t :: 1 <= t < n && InBand(g, path[t])
  }

  /** The payoff's `activated` flag after the whole path. */
  predicate Activated(g: GanTerms, path: seq<real>)
  {
    ActivatedUpTo(g, path, |path|)
  }

  /** `ever_activated` of the backtest: any price of the path, the first one
      included, is in the band. */
  predicate EverActivated(g: GanTerms, path: seq<real>)
  {
    exists i :: 0 <= i < |path| && InBand(g, path[i])
  }

  /** The relative change of an in-band step divides by the price before it. */
  predicate ChangesDefined(g: GanTerms, path: seq<real>)
  {
    forall t :: 1 <= t < |path| && InBand(g, path[t]) ==> path[t - 1] != 0.0
  }

  /** The time of step `t`. */
  function StepTime(g: GanTerms, t: nat): real
  {
    t as real * g.dt
  }

  /** Gamma at the price and the time of step `t`. */
  function StepGamma(g: GanTerms, gamma: (real, real) -> real, path: seq<real>, t: nat): real
    requires t < |path|
  {
    gamma(path[t], StepTime(g, t))
  }

  /** The relative price change of step `t`. */
  function RelativeChange(path: seq<real>, t: nat): real
    requires 1 <= t < |path| && path[t - 1] != 0.0
  {
    (path[t] - path[t - 1]) / path[t - 1]
  }

  /** What in-band step `t` earns: gamma times amplification times the
      squared relative change. */
  function StepTerm(g: GanTerms, gamma: (real, real) -> real, path: seq<real>, t: nat): real
    requires 1 <= t < |path| && path[t - 1] != 0.0
  {
    var change := RelativeChange(path, t);
    StepGamma(g, gamma, path, t) * g.amplification * (change * change)
  }

  /** What step `t` adds to the contribution: its term when it is in the
      band, nothing otherwise. */
  function StepEarned(g: GanTerms, gamma: (real, real) -> real, path: seq<real>, t: nat): real
    requires 1 <= t < |path| && ChangesDefined(g, path)
  {
    if InBand(g, path[t]) then StepTerm(g, gamma, path, t) else 0.0
  }

  /** The gamma contribution of the steps `1 .. n-1`. */
  function GammaContribution(g: GanTerms, gamma: (real, real) -> real, path: seq<real>, n: nat): real
    requires n <= |path| && ChangesDefined(g, path)
  {
    if n <= 1 then 0.0
    else GammaContribution(g, gamma, path, n - 1) + StepEarned(g, gamma, path, n - 1)
  }

  /** The note's return on one path. */
  function GanPayoff(g: GanTerms, gamma: (real, real) -> real, path: seq<real>): real
    requires ChangesDefined(g, path)
  {
    if !Activated(g, path) then -g.costFactor
    else GammaContribution(g, gamma, path, |path|) - g.costFactor
  }

  /** Without an in-band step nothing is earned. */
  lemma {:induction false} NoActiveStepNoContribution(g: GanTerms, gamma: (real, real) -> real, path: seq<real>, n: nat)
    requires n <= |path| && ChangesDefined(g, path)
    requires !ActivatedUpTo(g, path, n)
    ensures GammaContribution(g, gamma, path, n) == 0.0
  {
    if n > 1 {
      NoActiveStepNoContribution(g, gamma, path, n - 1);
      assert !InBand(g, path[n - 1]);
    }
  }

  /** A path that never enters the band returns exactly minus the cost; on
      every path the return is the contribution less the cost, so the
      special case for a never-activated path changes nothing. */
  lemma PayoffIsContributionLessCost(g: GanTerms, gamma: (real, real) -> real, path: seq<real>)
    requires ChangesDefined(g, path)
    ensures !Activated(g, path) ==> GanPayoff(g, gamma, path) == -g.costFactor
    ensures GanPayoff(g, gamma, path) == GammaContribution(g, gamma, path, |path|) - g.costFactor
  {
    if !Activated(g, path) {
      NoActiveStepNoContribution(g, gamma, path, |path|);
    }
  }

  /** Gamma is a non-negative quantity. */
  ghost predicate NonNegativeGamma(gamma: (real, real) -> real)
  {
    forall s: real, t: real :: gamma(s, t) >= 0.0
  }

  /** With a non-negative gamma and amplification every term is non-negative. */
  lemma {:induction false} ContributionNonNegative(g: GanTerms, gamma: (real, real) -> real, path: seq<real>, n: nat)
    requires n <= |path| && ChangesDefined(g, path)
    requires NonNegativeGamma(gamma) && g.amplification >= 0.0
    ensures GammaContribution(g, gamma, path, n) >= 0.0
  {
    if n > 1 {
      ContributionNonNegative(g, gamma, path, n - 1);
      if InBand(g, path[n - 1]) {
        var t := n - 1;
        var change := RelativeChange(path, t);
        var gm := StepGamma(g, gamma, path, t);
        assert gm >= 0.0;
        ProductNonNegative(gm, g.amplification, change * change);
      }
    }
  }

  lemma ProductNonNegative(a: real, b: real, c: real)
    requires a >= 0.0 && b >= 0.0 && c >= 0.0
    ensures a * b * c >= 0.0
  {
    assert a * b >= 0.0;
  }

  /** The note never loses more than its cost. */
  lemma PayoffAtLeastMinusCost(g: GanTerms, gamma: (real, real) -> real, path: seq<real>)
    requires ChangesDefined(g, path)
    requires NonNegativeGamma(gamma) && g.amplification >= 0.0
    ensures GanPayoff(g, gamma, path) >= -g.costFactor
  {
    PayoffIsContributionLessCost(g, gamma, path);
    ContributionNonNegative(g, gamma, path, |path|);
  }

  /** What in-band step `t` earns before amplification. */
  function UnamplifiedTerm(g: GanTerms, gamma: (real, real) -> real, path: seq<real>, t: nat): real
    requires 1 <= t < |path| && path[t - 1] != 0.0
  {
    var change := RelativeChange(path, t);
    StepGamma(g, gamma, path, t) * (change * change)
  }

  /** The gamma contribution before amplification, over the in-band steps
      `1 .. n-1`. */
  function UnamplifiedContribution(g: GanTerms, gamma: (real, real) -> real, path: seq<real>, n: nat): real
    requires n <= |path| && ChangesDefined(g, path)
  {
    if n <= 1 then 0.0
    else UnamplifiedContribution(g, gamma, path, n - 1) + UnamplifiedEarned(g, gamma, path, n - 1)
  }

  function UnamplifiedEarned(g: GanTerms, gamma: (real, real) -> real, path: seq<real>, t: nat): real
    requires 1 <= t < |path| && ChangesDefined(g, path)
  {
    if InBand(g, path[t]) then UnamplifiedTerm(g, gamma, path, t) else 0.0
  }

  /** The contribution is linear in the amplification factor: it is the
      factor times the unamplified contribution. */
  lemma {:induction false} ContributionScalesWithAmplification(g: GanTerms, gamma: (real, real) -> real,
                                                              path: seq<real>, n: nat)
    requires n <= |path| && ChangesDefined(g, path)
    ensures GammaContribution(g, gamma, path, n) ==
            g.amplification * UnamplifiedContribution(g, gamma, path, n)
  {
    if n > 1 {
      ContributionScalesWithAmplification(g, gamma, path, n - 1);
      ScalesOneMoreStep(g, gamma, path, n);
    }
  }

  lemma ScalesOneMoreStep(g: GanTerms, gamma: (real, real) -> real, path: seq<real>, n: nat)
    requires 1 < n <= |path| && ChangesDefined(g, path)
    requires GammaContribution(g, gamma, path, n - 1) ==
             g.amplification * UnamplifiedContribution(g, gamma, path, n - 1)
    ensures GammaContribution(g, gamma, path, n) ==
            g.amplification * UnamplifiedContribution(g, gamma, path, n)
  {
    var t := n - 1;
    StepScales(g, gamma, path, t);
    Combine(g.amplification, GammaContribution(g, gamma, path, t),
            UnamplifiedContribution(g, gamma, path, t),
            StepEarned(g, gamma, path, t), UnamplifiedEarned(g, gamma, path, t),
            GammaContribution(g, gamma, path, n), UnamplifiedContribution(g, gamma, path, n));
  }

  /** One step's earnings are the factor times its unamplified earnings. */
  lemma StepScales(g: GanTerms, gamma: (real, real) -> real, path: seq<real>, t: nat)
    requires 1 <= t < |path| && ChangesDefined(g, path)
    ensures StepEarned(g, gamma, path, t) == g.amplification * UnamplifiedEarned(g, gamma, path, t)
  {
    if InBand(g, path[t]) {
      var change := RelativeChange(path, t);
      ScaleAlgebra(g.amplification, StepGamma(g, gamma, path, t), change * change);
    }
  }

  lemma ScaleAlgebra(a: real, gm: real, c2: real)
    ensures gm * a * c2 == a * (gm * c2)
  {
  }

  lemma Combine(a: real, x: real, y: real, p: real, u: real, total: real, unitTotal: real)
    requires x == a * y && p == a * u
    requires total == x + p && unitTotal == y + u
    ensures total == a * unitTotal
  {
  }

  /** The price at index 0 is never judged: replacing it does not change
      whether the payoff activates. */
  lemma FirstPriceNotJudged(g: GanTerms, path: seq<real>, x: real)
    requires |path| > 0
    ensures Activated(g, path) == Activated(g, [x] + path[1..])
  {
    var path2 := [x] + path[1..];
    assert forall t :: 1 <= t < |path| ==> path2[t] == path[t];
  }

  /** The payoff's flag implies the backtest's `ever_activated`. */
  lemma ActivatedImpliesEverActivated(g: GanTerms, path: seq<real>)
    ensures Activated(g, path) ==> EverActivated(g, path)
  {
    if Activated(g, path) {
      var t :| 1 <= t < |path| && InBand(g, path[t]);
      assert 0 <= t < |path| && InBand(g, path[t]);
    }
  }

  /** A constant gamma of one, for the examples below. */
  function UnitGamma(s: real, t: real): real
  {
    1.0
  }

  /** The converse fails: a path that starts at `K` and leaves the band at
      once is reported as ever activated, yet the note only pays its cost. */
  lemma EverActivatedWithoutPayoff()
    ensures var g := GanTerms(100.0, 5.0, 2.5, 0.05, 0.001);
      var path := [100.0, 120.0];
      && EverActivated(g, path) && !Activated(g, path)
      && ChangesDefined(g, path) && GanPayoff(g, UnitGamma, path) == -0.05
  {
    var g := GanTerms(100.0, 5.0, 2.5, 0.05, 0.001);
    var path := [100.0, 120.0];
    assert InBand(g, path[0]);
    assert !InBand(g, path[1]);
  }

  /** One in-band step earns gamma times amplification times the squared
      relative change: a move from 100 to 102 with gamma 1 and factor 2.5
      earns 0.001. */
  lemma OneInBandStep()
    ensures var g := GanTerms(100.0, 5.0, 2.5, 0.05, 0.001);
      var path := [100.0, 102.0];
      && ChangesDefined(g, path) && Activated(g, path)
      && GanPayoff(g, UnitGamma, path) == 0.001 - 0.05
  {
    var g := GanTerms(100.0, 5.0, 2.5, 0.05, 0.001);
    var path := [100.0, 102.0];
    assert InBand(g, path[1]);
    assert Activated(g, path);
    assert (path[1] - path[0]) / path[0] == 0.02;
    assert StepTerm(g, UnitGamma, path, 1) == 0.001;
    assert GammaContribution(g, UnitGamma, path, 1) == 0.0;
  }

  function Max0(x: real): real
  {
    if x > 0.0 then x else 0.0
  }

  /** The straddle's value at expiry: call plus put struck at `K`. */
  function StraddleTerminalValue(k: real, finalPrice: real): (v: real)
    ensures v == Abs(finalPrice - k)
    ensures v >= 0.0
  {
    Max0(finalPrice - k) + Max0(k - finalPrice)
  }

  /** The straddle's return, given its initial cost (the Black-Scholes call
      plus put price). */
  function VanillaStraddleReturn(k: real, path: seq<real>, initialCost: real): (r: real)
    requires |path| > 0 && initialCost != 0.0
    ensures r * initialCost == StraddleTerminalValue(k, path[|path| - 1]) - initialCost
    ensures initialCost > 0.0 ==> r >= -1.0
    ensures r == 0.0 <==> StraddleTerminalValue(k, path[|path| - 1]) == initialCost
  {
    var v := StraddleTerminalValue(k, path[|path| - 1]);
    ReturnAlgebra(v, initialCost);
    (v - initialCost) / initialCost
  }

  lemma ReturnAlgebra(v: real, c: real)
    requires c != 0.0
    ensures (v - c) / c * c == v - c
    ensures c > 0.0 && v >= 0.0 ==> (v - c) / c >= -1.0
    ensures (v - c) / c == 0.0 <==> v == c
  {
    var q := (v - c) / c;
    assert q * c == v - c;
    if c > 0.0 && v >= 0.0 {
      assert (q + 1.0) * c == v;
    }
  }

  /** `max - min` of the path: no two prices are further apart, and two of
      them are exactly that far apart. */
  function PriceRange(path: seq<real>): (r: real)
    requires |path| > 0
    ensures r >= 0.0
    ensures forall i, j :: 0 <= i < |path| && 0 <= j < |path| ==> path[i] - path[j] <= r
    ensures exists i, j :: 0 <= i < |path| && 0 <= j < |path| && path[i] - path[j] == r
  {
    var hi := SeqMax(path);
    var lo := SeqMin(path);
    var i :| 0 <= i < |path| && path[i] == hi;
    var j :| 0 <= j < |path| && path[j] == lo;
    assert path[i] - path[j] == hi - lo;
    hi - lo
  }

  /** `gan / vanilla`, undefined (NaN) exactly when the vanilla return is 0. */
  function AmplificationRatio(gan: real, vanilla: real): (r: Option<real>)
    ensures r.None? <==> vanilla == 0.0
    ensures r.Some? ==> r.value * vanilla == gan
  {
    if vanilla != 0.0 then Some(gan / vanilla) else None
  }

  /** One result row of the backtest (the realised volatility is left out). */
  datatype Row = Row(pathId: nat, ganPayoff: real, vanillaPayoff: real, ratio: Option<real>,
                     everActivated: bool, finalPrice: real, maxPrice: real, minPrice: real,
                     priceRange: real, initialPrice: real, center: real, bandwidth: real)

  /** The row the backtest records for path number `id`. */
  function BacktestRow(g: GanTerms, gamma: (real, real) -> real, s0: real, initialCost: real,
                       id: nat, path: seq<real>): Row
    requires |path| > 0 && ChangesDefined(g, path) && initialCost != 0.0
  {
    var gan := GanPayoff(g, gamma, path);
    var vanilla := VanillaStraddleReturn(g.k, path, initialCost);
    Row(id, gan, vanilla, AmplificationRatio(gan, vanilla), EverActivated(g, path),
        path[|path| - 1], SeqMax(path), SeqMin(path), PriceRange(path), s0, g.k, g.delta)
  }

  /** What every row says: the price statistics are ordered, the ratio is
      missing exactly when the straddle broke even, a path never in the band
      returns minus the cost, and the note never loses more than its cost. */
  lemma BacktestRowFacts(g: GanTerms, gamma: (real, real) -> real, s0: real, initialCost: real,
                         id: nat, path: seq<real>)
    requires |path| > 0 && ChangesDefined(g, path) && initialCost != 0.0
    ensures var row := BacktestRow(g, gamma, s0, initialCost, id, path);
      && row.minPrice <= row.finalPrice <= row.maxPrice
      && row.priceRange == row.maxPrice - row.minPrice >= 0.0
      && (row.ratio.None? <==> StraddleTerminalValue(g.k, row.finalPrice) == initialCost)
      && (!row.everActivated ==> row.ganPayoff == -g.costFactor)
      && (NonNegativeGamma(gamma) && g.amplification >= 0.0 ==> row.ganPayoff >= -g.costFactor)
  {
    ActivatedImpliesEverActivated(g, path);
    PayoffIsContributionLessCost(g, gamma, path);
    if NonNegativeGamma(gamma) && g.amplification >= 0.0 {
      PayoffAtLeastMinusCost(g, gamma, path);
    }
  }

  class GammaAmplifierNote {
    const s0: real
    const k: real
    const delta: real
    const horizon: real
    const r: real
    const sigma: real
    const stepsPerDay: nat
    const amplification: real
    const costFactor: real
    /** `int(T * 365 * steps_per_day)`, given here. */
    const totalSteps: nat
    const dt: real
    const activationLow: real
    const activationHigh: real

    /** What the constructor establishes. */
    predicate Valid()
    {
      && totalSteps > 0
      && dt == horizon / totalSteps as real
      && activationLow == k - delta
      && activationHigh == k + delta
    }

    /** The parameters the payoff reads. */
    function Terms(): GanTerms
    {
      GanTerms(k, delta, amplification, costFactor, dt)
    }

    /** The time step divides the horizon by the step count, so the count
        must be positive. */
    constructor (s0: real, k: real, delta: real, horizon: real, r: real, sigma: real,
                 stepsPerDay: nat, amplification: real, costFactor: real, totalSteps: nat)
      requires totalSteps > 0
      ensures this.s0 == s0 && this.k == k && this.delta == delta && this.horizon == horizon
      ensures this.r == r && this.sigma == sigma && this.stepsPerDay == stepsPerDay
      ensures this.amplification == amplification && this.costFactor == costFactor
      ensures this.totalSteps == totalSteps
      ensures Valid()
    {
      this.s0, this.k, this.delta, this.horizon, this.r, this.sigma := s0, k, delta, horizon, r, sigma;
      this.stepsPerDay, this.amplification, this.costFactor := stepsPerDay, amplification, costFactor;
      this.totalSteps := totalSteps;
      this.dt := horizon / totalSteps as real;
      this.activationLow := k - delta;
      this.activationHigh := k + delta;
    }

    /** The price lies within `delta` of `K`. */
    function IsActivated(price: real): (active: bool)
      requires Valid()
      ensures active <==> Abs(price - k) <= delta
      ensures active == InBand(Terms(), price)
    {
      activationLow <= price <= activationHigh
    }

    /** The payoff loop: steps `1 .. |path|-1`, a sticky `activated` flag and
        the running gamma contribution of the in-band steps. */
    method CalculateGanPayoff(path: seq<real>, gamma: (real, real) -> real) returns (payoff: real)
      requires Valid() && ChangesDefined(Terms(), path)
      ensures payoff == GanPayoff(Terms(), gamma, path)
    {
      var g := Terms();
      payoff := 0.0;
      var activated := false;
      var gammaContribution := 0.0;
      var t := 1;
      while t < |path|
        invariant 1 <= t && (|path| > 0 ==> t <= |path|)
        invariant activated == ActivatedUpTo(g, path, if t <= |path| then t else |path|)
        invariant gammaContribution == GammaContribution(g, gamma, path, if t <= |path| then t else |path|)
      {
        var currentTime := t as real * dt;
        var currentPrice := path[t];
        var previousPrice := path[t - 1];
        var isActive := IsActivated(currentPrice);
        if isActive {
          activated := true;
          var priceChange := (currentPrice - previousPrice) / previousPrice;
          var gm := gamma(currentPrice, currentTime);
          assert GammaContribution(g, gamma, path, t + 1) ==
                 GammaContribution(g, gamma, path, t) + StepTerm(g, gamma, path, t);
          assert StepEarned(g, gamma, path, t) == StepTerm(g, gamma, path, t);
          assert currentTime == StepTime(g, t);
          assert gm == StepGamma(g, gamma, path, t) && priceChange == RelativeChange(path, t);
          gammaContribution := gammaContribution + gm * amplification * (priceChange * priceChange);
        } else {
          assert ActivatedUpTo(g, path, t + 1) == ActivatedUpTo(g, path, t);
        }
        t := t + 1;
      }
      if !activated {
        return -costFactor;
      }
      payoff := gammaContribution - costFactor;
    }

    /** The backtest over the given paths: one row per path, in order. */
    method RunBacktest(paths: seq<seq<real>>, gamma: (real, real) -> real, initialCost: real)
      returns (results: seq<Row>)
      requires Valid() && initialCost != 0.0
      requires forall i :: 0 <= i < |paths| ==> |paths[i]| > 0 && ChangesDefined(Terms(), paths[i])
      ensures |results| == |paths|
      ensures forall i :: 0 <= i < |paths| ==> results[i] == BacktestRow(Terms(), gamma, s0, initialCost, i, paths[i])
    {
      results := [];
      var i := 0;
      while i < |paths|
        invariant 0 <= i <= |paths|
        invariant |results| == i
        invariant forall j :: 0 <= j < i ==> results[j] == BacktestRow(Terms(), gamma, s0, initialCost, j, paths[j])
      {
        var row := PathRow(i, paths[i], gamma, initialCost);
        results := results + [row];
        i := i + 1;
      }
    }

    /** The body of the backtest loop: the row for path number `i`. */
    method PathRow(i: nat, path: seq<real>, gamma: (real, real) -> real, initialCost: real) returns (row: Row)
      requires Valid() && initialCost != 0.0
      requires |path| > 0 && ChangesDefined(Terms(), path)
      ensures row == BacktestRow(Terms(), gamma, s0, initialCost, i, path)
    {
      var ganPayoff := CalculateGanPayoff(path, gamma);
      var vanillaPayoff := VanillaStraddleReturn(k, path, initialCost);
      var everActivated := EverActivated(Terms(), path);
      var finalPrice := path[|path| - 1];
      var maxPrice := SeqMax(path);
      var minPrice := SeqMin(path);
      var priceRange := maxPrice - minPrice;
      var ratio := if vanillaPayoff != 0.0 then Some(ganPayoff / vanillaPayoff) else None;
      row := Row(i, ganPayoff, vanillaPayoff, ratio, everActivated, finalPrice,
                 maxPrice, minPrice, priceRange, s0, k, delta);
    }
  }
}
