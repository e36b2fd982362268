/** Adaptive-margin control note.

    One Monte Carlo path is a sequence of per-step relative increments
    (the Gaussian draws are not modelled).  The note pays the terminal
    return on the principal, capped at `capReturn` once the return has
    knocked in; the excess above the cap is banked in a pool.  The lowest
    equity reached on the path is compared with the maintenance margin; the
    pool refills it by at most the shortfall, and a path whose equity is
    still below the line with an empty pool is liquidated at that equity. */
module AdaptiveMarginNote {
  import opened Common

  /** The note's terms; the values the script uses are `SourceTerms`. */
  datatype Terms = Terms(
    s0: real,
    principal: real,
    capReturn: real,
    knockInReturn: real,
    initialMargin: real,
    maintenanceMargin: real)

  const SourceTerms := Terms(100.0, 100.0, 0.30, 0.20, 0.10 * 100.0, 0.05 * 100.0)

  /** How many paths (and their pools) are kept for the charts. */
  const ExampleCount: nat := 4

  /** The price path integrated from the increments: each step adds
      `price * increment`; nothing keeps the price positive. */
  function PricePath(s0: real, incs: seq<real>): (p: seq<real>)
    ensures |p| == |incs| + 1
    ensures p[0] == s0
    ensures forall t :: 0 <= t < |incs| ==> p[t + 1] == Step(p[t], incs[t])
  {
    if |incs| == 0 then [s0]
    else
      var p := PricePath(s0, incs[..|incs| - 1]);
      p + [Step(p[|p| - 1], incs[|incs| - 1])]
  }

  /** One Euler step of the script: `price + price * increment`. */
  function Step(price: real, inc: real): real
  {
    price + price * inc
  }

  /** A single step of -200% takes the price below zero: there is no floor. */
  lemma NoPositivityFloor()
    ensures PricePath(100.0, [-2.0]) == [100.0, -100.0]
  {
  }

  function TerminalReturn(t: Terms, prices: seq<real>): real
    requires |prices| > 0 && t.s0 != 0.0
  {
    (prices[|prices| - 1] - t.s0) / t.s0
  }

  /** Payout and pool before the margin check. */
  datatype Split = Split(payout: real, pool: real)

  /** The knock-in / cap split of the terminal return (judged on the
      terminal return only). */
  function CapSplit(t: Terms, rT: real): Split
  {
    if rT > t.knockInReturn then
      if rT > t.capReturn then
        Split(t.capReturn * t.principal, (rT - t.capReturn) * t.principal)
      else
        Split(rT * t.principal, 0.0)
    else
      Split(rT * t.principal, 0.0)
  }

  /** Payout and pool together are always the whole terminal return on the
      principal; the pool is non-empty only for a knocked-in return above the
      cap, and then the payout is exactly the capped amount. */
  lemma CapSplitProperties(t: Terms, rT: real)
    ensures var r := CapSplit(t, rT);
      && r.payout + r.pool == rT * t.principal
      && (rT > t.knockInReturn && rT > t.capReturn ==> r.payout == t.capReturn * t.principal)
      && (!(rT > t.knockInReturn && rT > t.capReturn) ==> r.pool == 0.0 && r.payout == rT * t.principal)
      && (t.principal > 0.0 ==> (r.pool > 0.0 <==> rT > t.knockInReturn && rT > t.capReturn))
      && (t.principal >= 0.0 ==> r.pool >= 0.0)
  {
    if rT > t.knockInReturn && rT > t.capReturn {
      ProductSign(rT - t.capReturn, t.principal);
    }
  }

  /** The sign of a product with a positive factor is the sign of the other. */
  lemma ProductSign(a: real, b: real)
    requires a > 0.0
    ensures b > 0.0 ==> a * b > 0.0
    ensures b >= 0.0 ==> a * b >= 0.0
  {
  }

  /** The equity at the lowest price of the path. */
  function MinEquity(t: Terms, prices: seq<real>): real
    requires |prices| > 0 && t.s0 != 0.0
  {
    t.principal * (SeqMin(prices) / t.s0)
  }

  datatype Refilled = Refilled(equity: real, pool: real)

  /** The margin refill: equity below the maintenance margin draws
      `min(pool, shortfall)` from a positive pool. */
  function MarginRefill(t: Terms, equity: real, pool: real): (r: Refilled)
    ensures r.equity + r.pool == equity + pool
    ensures pool >= 0.0 ==> r.pool >= 0.0 && r.equity >= equity
    ensures equity < t.maintenanceMargin ==> r.equity <= t.maintenanceMargin
    ensures equity >= t.maintenanceMargin || pool <= 0.0 ==> r == Refilled(equity, pool)
    ensures equity < t.maintenanceMargin && pool >= t.maintenanceMargin - equity ==>
              r.equity == t.maintenanceMargin
    ensures equity < t.maintenanceMargin && 0.0 < pool < t.maintenanceMargin - equity ==>
              r.pool == 0.0
  {
    if equity < t.maintenanceMargin && pool > 0.0 then
      var needed := t.maintenanceMargin - equity;
      var refill := if pool <= needed then pool else needed;
      Refilled(equity + refill, pool - refill)
    else
      Refilled(equity, pool)
  }

  /** What the script holds for one path after the margin check: the
      payout, the pool and the equity after the refill, and the value
      appended to the payout list. */
  datatype Settlement = Settlement(payout: real, pool: real, minEquity: real, finalPayout: real)

  function Settle(t: Terms, prices: seq<real>): (s: Settlement)
    requires |prices| > 0 && t.s0 != 0.0
    ensures s.finalPayout == if s.minEquity < t.maintenanceMargin && s.pool == 0.0 then s.minEquity else s.payout
  {
    var split := CapSplit(t, TerminalReturn(t, prices));
    var refilled := MarginRefill(t, MinEquity(t, prices), split.pool);
    var final := if refilled.equity < t.maintenanceMargin && refilled.pool == 0.0
                 then refilled.equity else split.payout;
    Settlement(split.payout, refilled.pool, refilled.equity, final)
  }

  /** The settlement of the path built from one list of increments. */
  function PathSettlement(t: Terms, incs: seq<real>): Settlement
    requires t.s0 != 0.0
  {
    Settle(t, PricePath(t.s0, incs))
  }

  /** Refills move money from the pool to the equity and never create any:
      equity plus pool after the check is the lowest equity plus the excess
      banked above the cap, and the pool stays non-negative. */
  lemma PoolConservation(t: Terms, prices: seq<real>)
    requires |prices| > 0 && t.s0 != 0.0 && t.principal >= 0.0
    ensures var s := Settle(t, prices);
      && s.pool >= 0.0
      && s.minEquity + s.pool == MinEquity(t, prices) + CapSplit(t, TerminalReturn(t, prices)).pool
      && s.payout + CapSplit(t, TerminalReturn(t, prices)).pool == TerminalReturn(t, prices) * t.principal
  {
    CapSplitProperties(t, TerminalReturn(t, prices));
  }

  /** A pool that covers the whole shortfall lifts the equity exactly to the
      maintenance margin and the path pays its (capped) payout. */
  lemma CoveredShortfallPaysPayout(t: Terms, prices: seq<real>)
    requires |prices| > 0 && t.s0 != 0.0
    requires MinEquity(t, prices) < t.maintenanceMargin
    requires CapSplit(t, TerminalReturn(t, prices)).pool >= t.maintenanceMargin - MinEquity(t, prices)
    ensures Settle(t, prices).minEquity == t.maintenanceMargin
    ensures Settle(t, prices).finalPayout == Settle(t, prices).payout
  {
  }

  /** The path is liquidated at its (refilled) equity exactly when that
      equity is still under the line and the pool is spent; a liquidation
      value is always below the maintenance margin, and otherwise the path
      pays its payout. */
  lemma LiquidationOrPayout(t: Terms, prices: seq<real>)
    requires |prices| > 0 && t.s0 != 0.0
    ensures var s := Settle(t, prices);
      if s.minEquity < t.maintenanceMargin && s.pool == 0.0
      then s.finalPayout == s.minEquity && s.finalPayout < t.maintenanceMargin
      else s.finalPayout == s.payout
  {
  }

  /** A path that never drops below the maintenance margin is never
      liquidated, whatever its pool. */
  lemma HealthyPathPaysPayout(t: Terms, prices: seq<real>)
    requires |prices| > 0 && t.s0 != 0.0
    requires MinEquity(t, prices) >= t.maintenanceMargin
    ensures Settle(t, prices).finalPayout == CapSplit(t, TerminalReturn(t, prices)).payout
  {
  }

  /** Raising the cap can lower a path's payoff: at cap 30% the pool of a
      40% return refills a dip to equity 3 and the path pays 30; at cap 39%
      the smaller pool runs dry and the path is liquidated at 4. */
  lemma RaisingCapCanLowerPayoff()
    ensures Settle(SourceTerms, [100.0, 3.0, 140.0]).finalPayout == 30.0
    ensures Settle(SourceTerms.(capReturn := 0.39), [100.0, 3.0, 140.0]).finalPayout == 4.0
  {
    var p := [100.0, 3.0, 140.0];
    assert SeqMin(p) == 3.0;
    assert TerminalReturn(SourceTerms, p) == 0.4;
  }

  /** The path build of the script (from `[S0]`, append
      `last + last * increment` once per step). */
  method BuildPrices(s0: real, incs: seq<real>) returns (prices: seq<real>)
    ensures prices == PricePath(s0, incs)
  {
    prices := [s0];
    var k := 0;
    while k < |incs|
      invariant 0 <= k <= |incs|
      invariant prices == PricePath(s0, incs[..k])
    {
      var last := prices[|prices| - 1];
      var dS := last * incs[k];
      prices := prices + [last + dS];
      assert incs[..k + 1][..k] == incs[..k];
      assert last + dS == Step(last, incs[k]);
      k := k + 1;
    }
    assert incs[..k] == incs;
  }

  /** One path of the Monte Carlo loop: build the prices from the
      increments, split the terminal return, refill the lowest equity from
      the pool and choose between liquidation and payout. */
  method EvaluatePath(t: Terms, incs: seq<real>) returns (prices: seq<real>, s: Settlement)
    requires t.s0 != 0.0
    ensures prices == PricePath(t.s0, incs)
    ensures s == Settle(t, prices) == PathSettlement(t, incs)
  {
    prices := BuildPrices(t.s0, incs);

    var sT := prices[|prices| - 1];
    var rT := (sT - t.s0) / t.s0;
    assert rT == TerminalReturn(t, prices);
    var payout := 0.0;
    var pool := 0.0;
    if rT > t.knockInReturn {
      if rT > t.capReturn {
        payout := t.capReturn * t.principal;
        pool := (rT - t.capReturn) * t.principal;
        assert Split(payout, pool) == CapSplit(t, rT);
      } else {
        payout := rT * t.principal;
        assert Split(payout, pool) == CapSplit(t, rT);
      }
    } else {
      payout := rT * t.principal;
      assert Split(payout, pool) == CapSplit(t, rT);
    }

    var minPrice := SeqMin(prices);
    var minEquity := t.principal * (minPrice / t.s0);
    ghost var equity0, pool0 := minEquity, pool;
    assert equity0 == MinEquity(t, prices);
    if minEquity < t.maintenanceMargin {
      if pool > 0.0 {
        var needed := t.maintenanceMargin - minEquity;
        var refill := if pool <= needed then pool else needed;
        minEquity := minEquity + refill;
        pool := pool - refill;
      }
    }

    assert Refilled(minEquity, pool) == MarginRefill(t, equity0, pool0);
    var final := if minEquity < t.maintenanceMargin && pool == 0.0 then minEquity else payout;
    s := Settlement(payout, pool, minEquity, final);
  }

  /** The payout list of the Monte Carlo loop: one entry per path. */
  function FinalPayouts(t: Terms, paths: seq<seq<real>>): (r: seq<real>)
    requires t.s0 != 0.0
    ensures |r| == |paths|
    ensures forall i :: 0 <= i < |paths| ==> r[i] == PathSettlement(t, paths[i]).finalPayout
  {
    if |paths| == 0 then []
    else FinalPayouts(t, paths[..|paths| - 1]) + [PathSettlement(t, paths[|paths| - 1]).finalPayout]
  }

  /** The example price paths kept for the charts: those of the first
      `ExampleCount` paths. */
  function ExamplePaths(t: Terms, paths: seq<seq<real>>): (r: seq<seq<real>>)
    requires t.s0 != 0.0
    ensures |r| == Min(|paths|, ExampleCount)
    ensures forall i :: 0 <= i < |r| ==> r[i] == PricePath(t.s0, paths[i])
  {
    if |paths| == 0 then []
    else
      var r := ExamplePaths(t, paths[..|paths| - 1]);
      if |paths| - 1 < ExampleCount then r + [PricePath(t.s0, paths[|paths| - 1])] else r
  }

  /** The pools (after the margin check) of the first `ExampleCount` paths. */
  function ExamplePools(t: Terms, paths: seq<seq<real>>): (r: seq<real>)
    requires t.s0 != 0.0
    ensures |r| == Min(|paths|, ExampleCount)
    ensures forall i :: 0 <= i < |r| ==> r[i] == PathSettlement(t, paths[i]).pool
  {
    if |paths| == 0 then []
    else
      var r := ExamplePools(t, paths[..|paths| - 1]);
      if |paths| - 1 < ExampleCount then r + [PathSettlement(t, paths[|paths| - 1]).pool] else r
  }

  /** One more path extends the three lists by that path alone. */
  lemma RunStep(t: Terms, paths: seq<seq<real>>, i: nat)
    requires t.s0 != 0.0 && i < |paths|
    ensures FinalPayouts(t, paths[..i + 1]) ==
            FinalPayouts(t, paths[..i]) + [PathSettlement(t, paths[i]).finalPayout]
    ensures ExamplePaths(t, paths[..i + 1]) ==
            if i < ExampleCount then ExamplePaths(t, paths[..i]) + [PricePath(t.s0, paths[i])]
            else ExamplePaths(t, paths[..i])
    ensures ExamplePools(t, paths[..i + 1]) ==
            if i < ExampleCount then ExamplePools(t, paths[..i]) + [PathSettlement(t, paths[i]).pool]
            else ExamplePools(t, paths[..i])
  {
    assert paths[..i + 1][..i] == paths[..i];
  }

  /** The whole Monte Carlo loop over the given increments: the payout
      list, the first `ExampleCount` paths and their pools, and the mean
      payout (NaN, here None, for no paths). */
  method RunPaths(t: Terms, paths: seq<seq<real>>)
    returns (finalPayouts: seq<real>, examplePaths: seq<seq<real>>, examplePools: seq<real>,
             expectedValue: Option<real>)
    requires t.s0 != 0.0
    ensures finalPayouts == FinalPayouts(t, paths)
    ensures examplePaths == ExamplePaths(t, paths)
    ensures examplePools == ExamplePools(t, paths)
    ensures expectedValue == Mean(finalPayouts)
  {
    finalPayouts, examplePaths, examplePools := [], [], [];
    var i := 0;
    while i < |paths|
      invariant 0 <= i <= |paths|
      invariant finalPayouts == FinalPayouts(t, paths[..i])
      invariant examplePaths == ExamplePaths(t, paths[..i])
      invariant examplePools == ExamplePools(t, paths[..i])
    {
      finalPayouts, examplePaths, examplePools := RunOne(t, paths, i, finalPayouts, examplePaths, examplePools);
      i := i + 1;
    }
    assert paths[..i] == paths;
    expectedValue := Mean(finalPayouts);
  }

  /** The body of the Monte Carlo loop: path number `i` is evaluated, its
      payout appended, and its prices and pool kept while fewer than
      `ExampleCount` paths have been seen. */
  method RunOne(t: Terms, paths: seq<seq<real>>, i: nat,
                finalPayouts: seq<real>, examplePaths: seq<seq<real>>, examplePools: seq<real>)
    returns (finalPayouts': seq<real>, examplePaths': seq<seq<real>>, examplePools': seq<real>)
    requires t.s0 != 0.0 && i < |paths|
    requires finalPayouts == FinalPayouts(t, paths[..i])
    requires examplePaths == ExamplePaths(t, paths[..i])
    requires examplePools == ExamplePools(t, paths[..i])
    ensures finalPayouts' == FinalPayouts(t, paths[..i + 1])
    ensures examplePaths' == ExamplePaths(t, paths[..i + 1])
    ensures examplePools' == ExamplePools(t, paths[..i + 1])
  {
    var prices, s := EvaluatePath(t, paths[i]);
    RunStep(t, paths, i);
    finalPayouts' := finalPayouts + [s.finalPayout];
    examplePaths', examplePools' := examplePaths, examplePools;
    if i < ExampleCount {
      examplePaths' := examplePaths + [prices];
      examplePools' := examplePools + [s.pool];
    }
  }
}
