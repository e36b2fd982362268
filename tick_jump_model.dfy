/** The tick-jump note as a pricing-model object: its configuration is fixed
    at construction, `IsJumpTriggered` scans one path and `Simulate` counts
    the triggering paths among the given ones (the geometric Brownian paths
    the script draws are inputs here) and prices the note as the fixed
    payout times the trigger probability. */
module TickJumpModel {
  import opened Common
  import opened TickJump

  class PricingModel {
    const s0: real
    const mu: real
    const sigma: real
    const horizon: real
    const dt: real
    /** `N = int(T / dt)`, the length of a simulated path, given here. */
    const steps: nat
    const m: nat
    const tickSize: real
    const marginRatio: real
    const initialEquity: real
    const strongLine: real
    const payout: real
    const tickThreshold: nat

    /** The trigger the object applies. */
    function Rule(): TickRule
    {
      TickRule(s0, tickSize, initialEquity, strongLine, tickThreshold)
    }

    constructor (s0: real, mu: real, sigma: real, horizon: real, dt: real, steps: nat, m: nat,
                 tickSize: real, marginRatio: real, initialEquity: real, payout: real, tickThreshold: nat)
      ensures this.s0 == s0 && this.mu == mu && this.sigma == sigma && this.horizon == horizon
      ensures this.dt == dt && this.steps == steps && this.m == m && this.tickSize == tickSize
      ensures this.marginRatio == marginRatio && this.initialEquity == initialEquity
      ensures this.payout == payout && this.tickThreshold == tickThreshold
      ensures this.strongLine == StrongLine(initialEquity, marginRatio)
    {
      this.s0, this.mu, this.sigma, this.horizon, this.dt := s0, mu, sigma, horizon, dt;
      this.steps, this.m, this.tickSize, this.marginRatio := steps, m, tickSize, marginRatio;
      this.initialEquity := initialEquity;
      this.strongLine := initialEquity * (1.0 - marginRatio);
      this.payout, this.tickThreshold := payout, tickThreshold;
    }

    /** Slides the window over the path and stops at the first one that
        fires. */
    method IsJumpTriggered(path: seq<real>) returns (triggered: bool)
      requires WellFormed(Rule())
      ensures triggered == Triggered(Rule(), path)
    {
      var i := tickThreshold;
      while i < |path|
        invariant tickThreshold <= i
        invariant forall j :: tickThreshold <= j < i && j < |path| ==> !Fires(Rule(), path, j)
      {
        var fires := WindowFires(path, i);
        if fires {
          return true;
        }
        i := i + 1;
      }
      return false;
    }

    /** The body of the scan at index `i`: the window `path[i - t .. i]`
        falls by more than a tick at every step and its last two equities
        cross the strong line downwards. */
    method WindowFires(path: seq<real>, i: nat) returns (fires: bool)
      requires WellFormed(Rule()) && tickThreshold <= i < |path|
      ensures fires == Fires(Rule(), path, i)
    {
      var rule := Rule();
      var ticks := path[i - tickThreshold..i];
      var deltas := Diff(ticks);
      WindowMatchesFires(rule, path, i, ticks);
      fires := false;
      if forall k :: 0 <= k < |deltas| ==> deltas[k] < -tickSize {
        var preEquity := initialEquity * (ticks[|ticks| - 2] / s0);
        var nowEquity := initialEquity * (ticks[|ticks| - 1] / s0);
        fires := preEquity > strongLine && nowEquity < strongLine;
      }
    }

    /** The counting part of the simulation over the given paths. */
    method Simulate(paths: seq<seq<real>>)
      returns (triggeredCount: nat, triggerProb: real, price: real,
               exampleTrigger: Option<seq<real>>, results: seq<seq<real>>)
      requires WellFormed(Rule())
      requires |paths| == m && m > 0
      ensures triggeredCount == CountTriggered(Rule(), paths)
      ensures triggerProb == triggeredCount as real / m as real
      ensures 0.0 <= triggerProb <= 1.0
      ensures price == payout * triggerProb
      ensures exampleTrigger == FirstTriggered(Rule(), paths)
      ensures results == paths
    {
      triggeredCount, results, exampleTrigger := 0, [], None;
      var k := 0;
      while k < m
        invariant 0 <= k <= m
        invariant triggeredCount == CountTriggered(Rule(), paths[..k])
        invariant exampleTrigger == FirstTriggered(Rule(), paths[..k])
        invariant results == paths[..k]
      {
        var pricePath := paths[k];
        ScanStep(Rule(), paths, k);
        var hit := IsJumpTriggered(pricePath);
        if hit {
          triggeredCount := triggeredCount + 1;
          if exampleTrigger.None? {
            exampleTrigger := Some(pricePath);
          }
        }
        results := results + [pricePath];
        k := k + 1;
      }
      assert paths[..k] == paths;
      FractionBounds(triggeredCount, m);
      triggerProb := triggeredCount as real / m as real;
      price := payout * triggerProb;
    }
  }
}
