/** The first, script form of the tick-jump note: the parameters are module
    constants, `IsJumpTriggered` scans one path with them, and `Simulate` is
    the top-level loop over `M` paths that counts the triggering ones and
    prices the note.  The paths the script draws are inputs here. */
module TickJumpScript {
  import opened Common
  import opened TickJump

  const S0: real := 100.0
  const M: nat := 10000
  const TickSize: real := 0.5
  const MarginRatio: real := 0.1
  const InitialEquity: real := 10000.0
  const StrongLineValue: real := StrongLine(InitialEquity, MarginRatio)
  const Payout: real := 1000.0
  const TickThreshold: nat := 3

  /** The trigger the script applies. */
  const ScriptRule: TickRule := TickRule(S0, TickSize, InitialEquity, StrongLineValue, TickThreshold)

  /** The strong line is an equity of 9000, which is a price of 90. */
  lemma ScriptLine()
    ensures WellFormed(ScriptRule)
    ensures StrongLineValue == 9000.0
    ensures forall p: real :: Equity(ScriptRule, p) > StrongLineValue <==> p > 90.0
    ensures forall p: real :: Equity(ScriptRule, p) < StrongLineValue <==> p < 90.0
  {
    forall p: real
      ensures Equity(ScriptRule, p) > StrongLineValue <==> p > 90.0
      ensures Equity(ScriptRule, p) < StrongLineValue <==> p < 90.0
    {
      EquityCrossingIsPriceCrossing(S0, TickSize, InitialEquity, MarginRatio, TickThreshold, p);
    }
  }

  /** Two declines of more than a tick (a window of three prices) are
      enough: 100, 95, 89 crosses the line at the last step of the window. */
  lemma TwoDeclinesTrigger()
    ensures WellFormed(ScriptRule)
    ensures Triggered(ScriptRule, [100.0, 95.0, 89.0, 89.0])
  {
    assert Fires(ScriptRule, [100.0, 95.0, 89.0, 89.0], 3);
  }

  /** The same crossing without the first decline does not trigger. */
  lemma OneDeclineDoesNotTrigger()
    ensures WellFormed(ScriptRule)
    ensures !Triggered(ScriptRule, [100.0, 100.0, 89.0, 89.0])
  {
    var path := [100.0, 100.0, 89.0, 89.0];
    assert !(path[1] - path[0] < -ScriptRule.tickSize);
    assert !AllDeclines(ScriptRule, path, 0, 3);
    assert !Fires(ScriptRule, path, 3);
  }

  /** Scans the windows of the path in order and stops at the first that
      fires. */
  method IsJumpTriggered(pricePath: seq<real>) returns (triggered: bool)
    ensures triggered == Triggered(ScriptRule, pricePath)
  {
    var i := TickThreshold;
    while i < |pricePath|
      invariant TickThreshold <= i
      invariant forall j :: TickThreshold <= j < i && j < |pricePath| ==> !Fires(ScriptRule, pricePath, j)
    {
      var ticks := pricePath[i - TickThreshold..i];
      var deltas := Diff(ticks);
      WindowMatchesFires(ScriptRule, pricePath, i, ticks);
      if forall k :: 0 <= k < |deltas| ==> deltas[k] < -TickSize {
        var preEquity := InitialEquity * (ticks[|ticks| - 2] / S0);
        var nowEquity := InitialEquity * (ticks[|ticks| - 1] / S0);
        assert preEquity == Equity(ScriptRule, pricePath[i - 2]);
        assert nowEquity == Equity(ScriptRule, pricePath[i - 1]);
        if preEquity > StrongLineValue && nowEquity < StrongLineValue {
          assert Fires(ScriptRule, pricePath, i);
          return true;
        }
      }
      i := i + 1;
    }
    return false;
  }

  /** The simulation loop over the `M` given paths: the number of triggering
      paths, the trigger probability, the price (payout times probability),
      the first triggering path and the list of all paths. */
  method Simulate(paths: seq<seq<real>>)
    returns (triggeredCount: nat, triggerProb: real, price: real,
             exampleTrigger: Option<seq<real>>, results: seq<seq<real>>)
    requires |paths| == M
    ensures triggeredCount == CountTriggered(ScriptRule, paths)
    ensures triggerProb == triggeredCount as real / M as real
    ensures 0.0 <= triggerProb <= 1.0
    ensures price == Payout * triggerProb && 0.0 <= price <= Payout
    ensures exampleTrigger == FirstTriggered(ScriptRule, paths)
    ensures results == paths
  {
    triggeredCount, results, exampleTrigger := 0, [], None;
    var k := 0;
    while k < M
      invariant 0 <= k <= M
      invariant triggeredCount == CountTriggered(ScriptRule, paths[..k])
      invariant exampleTrigger == FirstTriggered(ScriptRule, paths[..k])
      invariant results == paths[..k]
    {
      var pricePath := paths[k];
      ScanStep(ScriptRule, paths, k);
      var hit := IsJumpTriggered(pricePath);
      if hit {
        triggeredCount := triggeredCount + 1;
        if exampleTrigger.None? {
          exampleTrigger := Some(pricePath);
        }
      }
      results := results + [pricePath];
      k := k + 1;
    }
    assert paths[..k] == paths;
    FractionBounds(triggeredCount, M);
    triggerProb := triggeredCount as real / M as real;
    price := Payout * triggerProb;
  }
}
