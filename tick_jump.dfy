/** The tick-jump trigger shared by both tick-jump scripts.

    A path triggers when, for some index `i` with `threshold <= i < |path|`,
    the window of `threshold` prices `path[i - threshold .. i]` falls by more
    than one tick at every step and the equity of its last two prices crosses
    the strong (liquidation) line from above to below.  A window of
    `threshold` prices has only `threshold - 1` steps, and the window ends
    just before `i`, so the last price of a path is never looked at. */
module TickJump {
  import opened Common

  /** The parameters the trigger reads: initial price, tick size, initial
      equity, strong line and the window length (`tick_threshold`). */
  datatype TickRule = TickRule(s0: real, tickSize: real, initialEquity: real, strongLine: real, threshold: nat)

  /** The trigger needs two prices in each window (`ticks[-2]`) and divides by
      the initial price. */
  predicate WellFormed(r: TickRule)
  {
    r.threshold >= 2 && r.s0 != 0.0
  }

  /** `strong_line`: the initial equity less the margin ratio. */
  function StrongLine(initialEquity: real, marginRatio: real): real
  {
    initialEquity * (1.0 - marginRatio)
  }

  function Equity(r: TickRule, price: real): real
    requires r.s0 != 0.0
  {
    r.initialEquity * (price / r.s0)
  }

  /** Every step of the window `path[lo..hi]` falls by more than one tick. */
  predicate AllDeclines(r: TickRule, path: seq<real>, lo: nat, hi: nat)
    requires lo <= hi <= |path|
  {
    forall k :: lo <= k && k + 1 < hi ==> path[k + 1] - path[k] < -r.tickSize
  }

  /** The window ending just before `i` fires. */
  predicate Fires(r: TickRule, path: seq<real>, i: nat)
    requires WellFormed(r) && r.threshold <= i < |path|
  {
    && AllDeclines(r, path, i - r.threshold, i)
    && Equity(r, path[i - 2]) > r.strongLine
    && Equity(r, path[i - 1]) < r.strongLine
  }

  predicate Triggered(r: TickRule, path: seq<real>)
    requires WellFormed(r)
  {
    exists i :: r.threshold <= i < |path| && Fires(r, path, i)
  }

  /** A path no longer than the window never triggers. */
  lemma ShortPathNeverTriggers(r: TickRule, path: seq<real>)
    requires WellFormed(r) && |path| <= r.threshold
    ensures !Triggered(r, path)
  {
  }

  /** Whether a window fires depends only on the prices before its end. */
  lemma FiresReadsPrefix(r: TickRule, path: seq<real>, path2: seq<real>, i: nat)
    requires WellFormed(r) && r.threshold <= i < |path| && i < |path2|
    requires path[..i] == path2[..i]
    ensures Fires(r, path, i) == Fires(r, path2, i)
  {
    assert forall k :: 0 <= k < i ==> path[k] == path[..i][k] == path2[..i][k] == path2[k];
  }

  /** The last price of a path is never examined: replacing it cannot change
      the verdict. */
  lemma LastPriceIgnored(r: TickRule, path: seq<real>, x: real)
    requires WellFormed(r) && |path| > 0
    ensures Triggered(r, path) == Triggered(r, path[..|path| - 1] + [x])
  {
    var path2 := path[..|path| - 1] + [x];
    forall i: nat | r.threshold <= i < |path|
      ensures Fires(r, path, i) == Fires(r, path2, i)
    {
      assert path[..i] == path2[..i];
      FiresReadsPrefix(r, path, path2, i);
    }
    if Triggered(r, path) {
      var i :| r.threshold <= i < |path| && Fires(r, path, i);
      assert Fires(r, path2, i);
    }
    if Triggered(r, path2) {
      var i :| r.threshold <= i < |path2| && Fires(r, path2, i);
      assert Fires(r, path, i);
    }
  }

  /** With a positive initial price and equity, the equity crosses the strong
      line exactly when the price crosses `s0 * (1 - marginRatio)`. */
  lemma EquityCrossingIsPriceCrossing(s0: real, tickSize: real, initialEquity: real, marginRatio: real,
                                      threshold: nat, price: real)
    requires s0 > 0.0 && initialEquity > 0.0 && threshold >= 2
    ensures var r := TickRule(s0, tickSize, initialEquity, StrongLine(initialEquity, marginRatio), threshold);
      && (Equity(r, price) > r.strongLine <==> price > s0 * (1.0 - marginRatio))
      && (Equity(r, price) < r.strongLine <==> price < s0 * (1.0 - marginRatio))
  {
    var q := price / s0;
    var line := 1.0 - marginRatio;
    assert price == q * s0;
    assert q > line <==> q * s0 > line * s0 by {
      PositiveScaling(s0, q, line);
    }
    assert q < line <==> q * s0 < line * s0 by {
      PositiveScaling(s0, line, q);
    }
    assert initialEquity * q > initialEquity * line <==> q > line by {
      PositiveScaling(initialEquity, q, line);
    }
    assert initialEquity * q < initialEquity * line <==> q < line by {
      PositiveScaling(initialEquity, line, q);
    }
  }

  /** Multiplying by a positive factor keeps a strict order. */
  lemma PositiveScaling(c: real, a: real, b: real)
    requires c > 0.0
    ensures a > b <==> c * a > c * b
    ensures a > b <==> a * c > b * c
  {
    if a > b {
      assert c * (a - b) > 0.0;
    } else {
      assert c * (b - a) >= 0.0;
    }
  }

  /** numpy's `np.diff`: the steps between neighbouring prices. */
  function Diff(s: seq<real>): (d: seq<real>)
    ensures |s| > 0 ==> |d| == |s| - 1
    ensures |s| == 0 ==> d == []
    ensures forall k :: 0 <= k < |d| ==> d[k] == s[k + 1] - s[k]
  {
    if |s| <= 1 then [] else [s[1] - s[0]] + Diff(s[1..])
  }

  /** The window the loop slices out at index `i`, with its numpy steps,
      speaks of the same prices as `Fires`. */
  lemma WindowMatchesFires(r: TickRule, path: seq<real>, i: nat, ticks: seq<real>)
    requires WellFormed(r) && r.threshold <= i < |path|
    requires ticks == path[i - r.threshold..i]
    ensures (forall k :: 0 <= k < |Diff(ticks)| ==> Diff(ticks)[k] < -r.tickSize) <==>
            AllDeclines(r, path, i - r.threshold, i)
    ensures ticks[|ticks| - 2] == path[i - 2] && ticks[|ticks| - 1] == path[i - 1]
  {
    var lo := i - r.threshold;
    DiffOfWindow(path, lo, i, ticks);
    DeclinesMatch(r, path, lo, i, Diff(ticks));
    LastTwoOfWindow(path, lo, i);
  }

  lemma LastTwoOfWindow(path: seq<real>, lo: nat, hi: nat)
    requires lo + 2 <= hi <= |path|
    ensures path[lo..hi][hi - lo - 2] == path[hi - 2] && path[lo..hi][hi - lo - 1] == path[hi - 1]
  {
  }

  /** Every step of a list of the window's steps falls by more than a tick
      exactly when the window declines throughout. */
  lemma DeclinesMatch(r: TickRule, path: seq<real>, lo: nat, hi: nat, d: seq<real>)
    requires lo < hi <= |path| && |d| == hi - lo - 1
    requires forall k :: 0 <= k < |d| ==> d[k] == path[lo + k + 1] - path[lo + k]
    ensures (forall k :: 0 <= k < |d| ==> d[k] < -r.tickSize) <==> AllDeclines(r, path, lo, hi)
  {
    if forall k :: 0 <= k < |d| ==> d[k] < -r.tickSize {
      forall k | lo <= k && k + 1 < hi
        ensures path[k + 1] - path[k] < -r.tickSize
      {
        assert d[k - lo] < -r.tickSize;
      }
    }
  }

  /** The steps of a window are the steps of the path at the window's place. */
  lemma DiffOfWindow(path: seq<real>, lo: nat, hi: nat, w: seq<real>)
    requires lo < hi <= |path| && w == path[lo..hi]
    ensures |Diff(w)| == hi - lo - 1
    ensures forall k :: 0 <= k < |Diff(w)| ==> Diff(w)[k] == path[lo + k + 1] - path[lo + k]
  {
    assert forall k :: 0 <= k < |w| ==> w[k] == path[lo + k];
  }

  /** How many paths trigger. */
  function CountTriggered(r: TickRule, paths: seq<seq<real>>): (n: nat)
    requires WellFormed(r)
    ensures n <= |paths|
  {
    if |paths| == 0 then 0
    else CountTriggered(r, paths[..|paths| - 1]) + (if Triggered(r, paths[|paths| - 1]) then 1 else 0)
  }

  /** The count is zero exactly when no path triggers. */
  lemma {:induction false} CountZeroIffNone(r: TickRule, paths: seq<seq<real>>)
    requires WellFormed(r)
    ensures CountTriggered(r, paths) == 0 <==> forall i :: 0 <= i < |paths| ==> !Triggered(r, paths[i])
  {
    if |paths| > 0 {
      var init := paths[..|paths| - 1];
      CountZeroIffNone(r, init);
      assert forall i :: 0 <= i < |init| ==> init[i] == paths[i];
    }
  }

  /** The first triggering path, if any (`example_trigger`). */
  function FirstTriggered(r: TickRule, paths: seq<seq<real>>): Option<seq<real>>
    requires WellFormed(r)
  {
    if |paths| == 0 then None
    else
      var e := FirstTriggered(r, paths[..|paths| - 1]);
      if e.Some? then e
      else if Triggered(r, paths[|paths| - 1]) then Some(paths[|paths| - 1])
      else None
  }

  /** `FirstTriggered` finds nothing exactly when no path triggers, and
      otherwise returns a triggering path with no triggering path before it. */
  lemma {:induction false} FirstTriggeredIsFirst(r: TickRule, paths: seq<seq<real>>)
    requires WellFormed(r)
    ensures FirstTriggered(r, paths).None? <==> forall i :: 0 <= i < |paths| ==> !Triggered(r, paths[i])
    ensures FirstTriggered(r, paths).Some? ==>
              exists i :: 0 <= i < |paths| && paths[i] == FirstTriggered(r, paths).value &&
                          Triggered(r, paths[i]) && forall j :: 0 <= j < i ==> !Triggered(r, paths[j])
  {
    if |paths| > 0 {
      var init := paths[..|paths| - 1];
      FirstTriggeredIsFirst(r, init);
      assert forall i :: 0 <= i < |init| ==> init[i] == paths[i];
      var e := FirstTriggered(r, init);
      if e.Some? {
        var i :| 0 <= i < |init| && init[i] == e.value && Triggered(r, init[i]) &&
                 forall j :: 0 <= j < i ==> !Triggered(r, init[j]);
        assert paths[i] == e.value && Triggered(r, paths[i]);
      } else if Triggered(r, paths[|paths| - 1]) {
        assert forall j :: 0 <= j < |paths| - 1 ==> !Triggered(r, paths[j]);
      }
    }
  }

  /** One more path extends the count and the first-trigger search by that path alone. */
  lemma ScanStep(r: TickRule, paths: seq<seq<real>>, k: nat)
    requires WellFormed(r) && k < |paths|
    ensures CountTriggered(r, paths[..k + 1]) ==
            CountTriggered(r, paths[..k]) + (if Triggered(r, paths[k]) then 1 else 0)
    ensures FirstTriggered(r, paths[..k + 1]) ==
            if FirstTriggered(r, paths[..k]).Some? then FirstTriggered(r, paths[..k])
            else if Triggered(r, paths[k]) then Some(paths[k]) else None
  {
    assert paths[..k + 1][..k] == paths[..k];
  }

  /** A count out of `m` paths gives a probability. */
  lemma FractionBounds(n: nat, m: nat)
    requires n <= m && m > 0
    ensures 0.0 <= n as real / m as real <= 1.0
  {
  }
}
