/** The arbitrage side of the volatility-triggered swap: the closed loop of
    currencies a simulation trades around, the profit of one round of that
    loop on one day with a per-trade fee, the knock-in / knock-out flags over
    the daily profits, the simulation object that ties them together, its
    results and the holding period of a triggered run.  The simulated rate
    paths of the legs, drawn at random by the source, are inputs here. */
module ArbitrageSwap {
  import opened Common
  import opened ArbitrageRates

  const FeePerTrade: real := 0.001
  const KnockIn: real := 0.002
  const KnockOut: real := 0.0005
  const SimulationDays: nat := 30

  /** The list without one currency (`[c for c in s if c != x]`). */
  function Without(s: seq<string>, x: string): (r: seq<string>)
    ensures forall c :: c in r <==> c in s && c != x
    ensures Distinct(s) ==> Distinct(r)
    ensures Distinct(s) && x in s ==> |r| == |s| - 1
    ensures x !in s ==> |r| == |s|
  {
    if |s| == 0 then []
    else
      DistinctSplit(s);
      if s[0] == x then Without(s[1..], x)
      else [s[0]] + Without(s[1..], x)
  }

  /** A list of distinct currencies is its head and a distinct tail without it. */
  lemma DistinctSplit(s: seq<string>)
    requires |s| > 0
    ensures Distinct(s) ==> Distinct(s[1..]) && s[0] !in s[1..]
  {
  }

  /** A closed loop from `start`: it begins and ends there, and between the
      two it visits distinct listed currencies other than `start`, as many as
      `length - 1` asks for, or all there are. */
  predicate CurrencyLoop(path: seq<string>, start: string, length: int)
  {
    && |path| == 2 + Min(Max(length - 1, 0), |Without(Currencies, start)|)
    && path[0] == start && path[|path| - 1] == start
    && (forall k :: 0 < k < |path| - 1 ==> path[k] in Currencies && path[k] != start)
    && (forall a, b :: 0 < a < b < |path| - 1 ==> path[a] != path[b])
  }

  /** The loop under construction: `path` is `start` followed by `k` distinct
      listed currencies other than `start`, and `available` lists, once each,
      the listed currencies not yet on it. */
  ghost predicate Drawing(path: seq<string>, available: seq<string>, start: string, k: nat)
  {
    && |path| == k + 1 && path[0] == start
    && (forall c :: c in available <==> c in Currencies && c !in path)
    && Distinct(available)
    && k + |available| == |Without(Currencies, start)|
    && (forall i :: 0 < i < |path| ==> path[i] in Currencies && path[i] != start)
    && (forall a, b :: 0 < a < b < |path| ==> path[a] != path[b])
  }

  lemma CurrenciesDistinct()
    ensures Distinct(Currencies)
  {
  }

  lemma DrawingStarts(start: string)
    ensures Drawing([start], Without(Currencies, start), start, 0)
  {
    CurrenciesDistinct();
    var w := Without(Currencies, start);
    assert forall c :: c in w <==> c in Currencies && c !in [start];
  }

  /** Drawing one more available currency keeps the construction going. */
  lemma DrawingStep(path: seq<string>, available: seq<string>, start: string, k: nat, next: string)
    requires Drawing(path, available, start, k) && next in available
    ensures Drawing(path + [next], Without(available, next), start, k + 1)
  {
    var path' := path + [next];
    forall c
      ensures c in Without(available, next) <==> c in Currencies && c !in path'
    {
      assert c in path' <==> c in path || c == next;
    }
  }

  /** Closing the construction, after `k` draws that ran out of currencies or
      reached what `length - 1` asks for, gives a loop. */
  lemma DrawingCloses(path: seq<string>, available: seq<string>, start: string, k: nat, length: int)
    requires Drawing(path, available, start, k)
    requires k <= Max(length - 1, 0)
    requires k >= length - 1 || |available| == 0
    ensures CurrencyLoop(path + [start], start, length)
  {
  }

  /** Draws the loop: each next currency is any one still available (the
      source draws it uniformly), and the loop stops early when none is left. */
  method GenerateCurrencyPath(start: string, length: int) returns (path: seq<string>)
    ensures CurrencyLoop(path, start, length)
  {
    path := [start];
    var available := Without(Currencies, start);
    DrawingStarts(start);
    var k := 0;
    while k < length - 1
      invariant 0 <= k <= Max(length - 1, 0)
      invariant Drawing(path, available, start, k)
    {
      if |available| == 0 {
        break;
      }
      assert available[0] in available;
      var next :| next in available;
      DrawingStep(path, available, start, k, next);
      path := path + [next];
      available := Without(available, next);
      k := k + 1;
    }
    DrawingCloses(path, available, start, k, length);
    path := path + [start];
  }

  /** Every listed start has four other currencies to visit. */
  lemma ListedStartHasFourOthers(start: string)
    requires start in Currencies
    ensures |Without(Currencies, start)| == 4
  {
  }

  /** The day-`day` rates of the legs are available: each leg has its own
      path or the reverse one, long enough, and a reverse rate is not zero. */
  predicate LegQuoted(rates: map<Pair, seq<real>>, from: string, to: string, day: nat)
  {
    if (from, to) in rates then day < |rates[(from, to)]|
    else (to, from) in rates && day < |rates[(to, from)]| && rates[(to, from)][day] != 0.0
  }

  /** The rate of one leg on one day: its own path, else the reciprocal of the
      reverse path. */
  function LegRate(rates: map<Pair, seq<real>>, from: string, to: string, day: nat): (r: real)
    requires LegQuoted(rates, from, to, day)
    ensures (from, to) in rates ==> r == rates[(from, to)][day]
    ensures (from, to) !in rates ==> r * rates[(to, from)][day] == 1.0
  {
    if (from, to) in rates then rates[(from, to)][day] else 1.0 / rates[(to, from)][day]
  }

  function Legs(path: seq<string>): nat
  {
    if |path| == 0 then 0 else |path| - 1
  }

  /** The first `n` legs are quoted on day `day`. */
  predicate LegsQuotedUpTo(path: seq<string>, rates: map<Pair, seq<real>>, day: nat, n: nat)
    requires n < |path| || n == 0
  {
    forall i :: 0 <= i < n ==> LegQuoted(rates, path[i], path[i + 1], day)
  }

  predicate LegsQuoted(path: seq<string>, rates: map<Pair, seq<real>>, day: nat)
  {
    LegsQuotedUpTo(path, rates, day, Legs(path))
  }

  function FeeFactor(includeFees: bool): real
  {
    if includeFees then 1.0 - FeePerTrade else 1.0
  }

  /** The product of the first `n` leg rates, each times the fee factor. */
  function PathFactor(path: seq<string>, rates: map<Pair, seq<real>>, day: nat, includeFees: bool, n: nat): real
    requires n <= Legs(path) && LegsQuoted(path, rates, day)
  {
    if n == 0 then 1.0
    else PathFactor(path, rates, day, includeFees, n - 1) * LegRate(rates, path[n - 1], path[n], day) * FeeFactor(includeFees)
  }

  function Pow(x: real, n: nat): real
  {
    if n == 0 then 1.0 else Pow(x, n - 1) * x
  }

  /** The profit of one round of the loop on day `day`: the product of the leg
      rates, times `1 - fee` per leg when fees are on, less 1. */
  method ArbitrageProfit(path: seq<string>, day: nat, rates: map<Pair, seq<real>>, includeFees: bool)
    returns (profit: real)
    requires LegsQuoted(path, rates, day)
    ensures profit == PathFactor(path, rates, day, includeFees, Legs(path)) - 1.0
  {
    var profitFactor := 1.0;
    var i := 0;
    while i < |path| - 1
      invariant 0 <= i <= Legs(path)
      invariant profitFactor == PathFactor(path, rates, day, includeFees, i)
    {
      var fromCurr, toCurr := path[i], path[i + 1];
      var rate;
      if (fromCurr, toCurr) in rates {
        rate := rates[(fromCurr, toCurr)][day];
      } else {
        rate := 1.0 / rates[(toCurr, fromCurr)][day];
      }
      profitFactor := profitFactor * rate;
      if includeFees {
        profitFactor := profitFactor * (1.0 - FeePerTrade);
      }
      i := i + 1;
    }
    return profitFactor - 1.0;
  }

  /** The fee takes the same fraction off every leg: with fees the factor is
      the fee-free factor times `(1 - fee)` to the number of legs. */
  lemma {:induction false} FeesPerLeg(path: seq<string>, rates: map<Pair, seq<real>>, day: nat, n: nat)
    requires n <= Legs(path) && LegsQuoted(path, rates, day)
    ensures PathFactor(path, rates, day, true, n) == PathFactor(path, rates, day, false, n) * Pow(1.0 - FeePerTrade, n)
  {
    if n > 0 {
      FeesPerLeg(path, rates, day, n - 1);
      var a := PathFactor(path, rates, day, false, n - 1);
      var p := Pow(1.0 - FeePerTrade, n - 1);
      var r := LegRate(rates, path[n - 1], path[n], day);
      var c := 1.0 - FeePerTrade;
      assert PathFactor(path, rates, day, true, n) == (a * p) * r * c;
      assert PathFactor(path, rates, day, false, n) * Pow(c, n) == (a * r * 1.0) * (p * c);
      assert (a * p) * r * c == (a * r * 1.0) * (p * c);
    }
  }

  /** Out along a quoted pair and straight back, the rates cancel and the
      round only pays the two fees. */
  lemma ReturnTripPaysFees(rates: map<Pair, seq<real>>, a: string, b: string, day: nat)
    requires a != b && (a, b) in rates && (b, a) !in rates
    requires day < |rates[(a, b)]| && rates[(a, b)][day] != 0.0
    ensures LegsQuoted([a, b, a], rates, day)
    ensures PathFactor([a, b, a], rates, day, false, 2) == 1.0
    ensures PathFactor([a, b, a], rates, day, true, 2) == (1.0 - FeePerTrade) * (1.0 - FeePerTrade)
  {
    var path := [a, b, a];
    assert LegQuoted(rates, path[0], path[1], day) && LegQuoted(rates, path[1], path[2], day);
    var x := rates[(a, b)][day];
    var y := LegRate(rates, b, a, day);
    assert y * x == 1.0;
    assert PathFactor(path, rates, day, false, 1) == x * 1.0;
    assert PathFactor(path, rates, day, false, 2) == x * 1.0 * y * 1.0;
    assert Pow(1.0 - FeePerTrade, 1) == 1.0 - FeePerTrade;
    assert Pow(1.0 - FeePerTrade, 2) == (1.0 - FeePerTrade) * (1.0 - FeePerTrade);
    FeesPerLeg(path, rates, day, 2);
  }

  /** The knock-in and knock-out state of a simulation. */
  datatype Flags = Flags(isTriggered: bool, triggerDay: int, exitDay: int)

  const Fresh: Flags := Flags(false, -1, -1)

  /** One day of the flag logic: knock in on the first profit above the
      knock-in level, then knock out once on the first profit below the
      knock-out level. */
  function StepFlags(f: Flags, day: int, profit: real): Flags
  {
    var g := if !f.isTriggered && profit > KnockIn then f.(isTriggered := true, triggerDay := day) else f;
    if g.isTriggered && g.exitDay == -1 && profit < KnockOut then g.(exitDay := day) else g
  }

  /** The flags after the profits of days `0 .. |profits| - 1`. */
  function ScanFlags(f: Flags, profits: seq<real>): Flags
  {
    if |profits| == 0 then f
    else StepFlags(ScanFlags(f, profits[..|profits| - 1]), |profits| - 1, profits[|profits| - 1])
  }

  /** One more day of profits extends the list by that day's profit and the
      flags by one step. */
  lemma DayStep(path: seq<string>, rates: map<Pair, seq<real>>, f: Flags, day: nat)
    requires forall d: nat :: d <= day ==> LegsQuoted(path, rates, d)
    ensures DailyProfits(path, rates, day + 1) == DailyProfits(path, rates, day) + [DayProfit(path, rates, day)]
    ensures ScanFlags(f, DailyProfits(path, rates, day + 1))
         == StepFlags(ScanFlags(f, DailyProfits(path, rates, day)), day, DayProfit(path, rates, day))
  {
    ScanFlagsSnoc(f, DailyProfits(path, rates, day), DayProfit(path, rates, day));
  }

  /** One more day is one more step. */
  lemma ScanFlagsSnoc(f: Flags, profits: seq<real>, p: real)
    ensures ScanFlags(f, profits + [p]) == StepFlags(ScanFlags(f, profits), |profits|, p)
  {
    assert (profits + [p])[..|profits|] == profits;
  }

  /** Once set, the trigger and the exit stay as they are. */
  lemma {:induction false} FlagsSticky(f: Flags, profits: seq<real>)
    ensures f.isTriggered ==> ScanFlags(f, profits).isTriggered && ScanFlags(f, profits).triggerDay == f.triggerDay
    ensures f.exitDay != -1 ==> ScanFlags(f, profits).exitDay == f.exitDay
  {
    if |profits| > 0 {
      FlagsSticky(f, profits[..|profits| - 1]);
    }
  }

  /** From the fresh state the flags are: triggered exactly when some profit
      exceeds the knock-in level, on the first such day; exited on the first
      later day whose profit is below the knock-out level, if there is one;
      and both days stay -1 otherwise. */
  lemma {:induction false} FreshFlags(profits: seq<real>)
    ensures var r := ScanFlags(Fresh, profits);
      && (r.isTriggered <==> exists d :: 0 <= d < |profits| && profits[d] > KnockIn)
      && (r.isTriggered ==> 0 <= r.triggerDay < |profits| && profits[r.triggerDay] > KnockIn &&
                            forall d :: 0 <= d < r.triggerDay ==> profits[d] <= KnockIn)
      && (!r.isTriggered ==> r.triggerDay == -1 && r.exitDay == -1)
      && (r.exitDay != -1 ==> r.isTriggered && r.triggerDay < r.exitDay < |profits| &&
                              profits[r.exitDay] < KnockOut &&
                              forall d :: r.triggerDay <= d < r.exitDay ==> profits[d] >= KnockOut)
      && (r.isTriggered && r.exitDay == -1 ==> forall d :: r.triggerDay <= d < |profits| ==> profits[d] >= KnockOut)
  {
    if |profits| > 0 {
      var n := |profits| - 1;
      var init := profits[..n];
      FreshFlags(init);
      assert forall d :: 0 <= d < n ==> init[d] == profits[d];
      var r0 := ScanFlags(Fresh, init);
      var p := profits[n];
      var r := StepFlags(r0, n, p);
      assert r == ScanFlags(Fresh, profits);
      if !r0.isTriggered && p > KnockIn {
        assert r.triggerDay == n && r.exitDay == -1;
      }
      if r0.isTriggered {
        assert r.isTriggered && r.triggerDay == r0.triggerDay;
      }
    }
  }

  /** The profit of day `day` with fees, as the second loop records it. */
  function DayProfit(path: seq<string>, rates: map<Pair, seq<real>>, day: nat): real
    requires LegsQuoted(path, rates, day)
  {
    PathFactor(path, rates, day, true, Legs(path)) - 1.0
  }

  /** The profits of days `0 .. n - 1` of the loop, fees included. */
  function DailyProfits(path: seq<string>, rates: map<Pair, seq<real>>, n: nat): (ps: seq<real>)
    requires forall day: nat :: day < n ==> LegsQuoted(path, rates, day)
    ensures |ps| == n
    ensures forall day: nat :: day < n ==> ps[day] == DayProfit(path, rates, day)
  {
    if n == 0 then []
    else DailyProfits(path, rates, n - 1) + [DayProfit(path, rates, n - 1)]
  }

  /** Adds the simulated path of every leg neither of whose orientations has
      a path yet, among the first `n` legs. */
  function CoverLegs(rates: map<Pair, seq<real>>, path: seq<string>, draws: map<Pair, seq<real>>, n: nat): map<Pair, seq<real>>
    requires n <= Legs(path)
    requires forall i :: 0 <= i < |path| - 1 ==> (path[i], path[i + 1]) in draws
  {
    if n == 0 then rates
    else
      var before := CoverLegs(rates, path, draws, n - 1);
      var leg := (path[n - 1], path[n]);
      if leg !in before && (leg.1, leg.0) !in before then before[leg := draws[leg]] else before
  }

  /** Every stored path covers `days + 1` days with non-zero rates. */
  predicate RatePaths(rates: map<Pair, seq<real>>, days: nat)
  {
    forall p :: p in rates ==> |rates[p]| == days + 1 && forall d :: 0 <= d < |rates[p]| ==> rates[p][d] != 0.0
  }

  /** After covering the first `n` legs, the stored paths keep their shape, and
      each of those legs is quoted on every day. */
  lemma {:induction false} CoverLegsQuotes(rates: map<Pair, seq<real>>, path: seq<string>, draws: map<Pair, seq<real>>,
                                           days: nat, n: nat)
    requires n <= Legs(path)
    requires forall i :: 0 <= i < |path| - 1 ==> (path[i], path[i + 1]) in draws
    requires RatePaths(rates, days) && RatePaths(draws, days)
    ensures RatePaths(CoverLegs(rates, path, draws, n), days)
    ensures forall day: nat :: day <= days ==> LegsQuotedUpTo(path, CoverLegs(rates, path, draws, n), day, n)
  {
    if n > 0 {
      CoverLegsQuotes(rates, path, draws, days, n - 1);
      var before := CoverLegs(rates, path, draws, n - 1);
      var after := CoverLegs(rates, path, draws, n);
      forall p | p in before
        ensures p in after && after[p] == before[p]
      {
      }
      forall day: nat | day <= days
        ensures LegsQuotedUpTo(path, after, day, n)
      {
        assert LegsQuotedUpTo(path, before, day, n - 1);
      }
    }
  }

  /** Every drawn path starts at its leg's spot rate on the filled source
      table, as `simulate_rate_path` starts from `get_rate`. */
  predicate StartsAtSourceSpot(draws: map<Pair, seq<real>>)
  {
    forall p :: p in draws && |draws[p]| > 0 ==> draws[p][0] == SourceSpot(p.0, p.1)
  }

  /** The default loop from USD visits three of the other four currencies.
      On the filled source table its day-0 round multiplies out to the
      product of their USD rates. That product is at least
      6.45 · 0.72 · 0.72, so every such run knocks in on day 0. */
  lemma DefaultLoopKnocksInOnDayZero(path: seq<string>, draws: map<Pair, seq<real>>, days: nat)
    requires CurrencyLoop(path, Usd, 4)
    requires RatePaths(draws, days) && StartsAtSourceSpot(draws)
    requires forall i :: 0 <= i < |path| - 1 ==> (path[i], path[i + 1]) in draws
    ensures forall day: nat :: day <= days ==> LegsQuoted(path, CoverLegs(map[], path, draws, Legs(path)), day)
    ensures DayProfit(path, CoverLegs(map[], path, draws, Legs(path)), 0) > KnockIn
    ensures var f := ScanFlags(Fresh, DailyProfits(path, CoverLegs(map[], path, draws, Legs(path)), days + 1));
              f.isTriggered && f.triggerDay == 0
  {
    ListedStartHasFourOthers(Usd);
    var a, b, c := path[1], path[2], path[3];
    assert path == [Usd, a, b, c, Usd];
    assert a != b && a != c && b != c;
    CoverLegsQuotes(map[], path, draws, days, Legs(path));
    var rates := CoverLegs(map[], path, draws, Legs(path));
    assert (Usd, a) in draws && (a, b) in draws && (b, c) in draws && (c, Usd) in draws;
    DefaultLoopRates(path, a, b, c, draws);
    DefaultLoopFactor(path, a, b, c, rates);
    var profits := DailyProfits(path, rates, days + 1);
    assert profits[0] == PathFactor(path, rates, 0, true, 4) - 1.0;
    FreshFlags(profits);
  }

  /** On day 0 the legs of a default loop quote the filled table: each leg
      is stored from its own draw, which starts at that leg's spot rate. */
  lemma DefaultLoopRates(path: seq<string>, a: string, b: string, c: string, draws: map<Pair, seq<real>>)
    requires path == [Usd, a, b, c, Usd]
    requires a != Usd && b != Usd && c != Usd && a != b && a != c && b != c
    requires (Usd, a) in draws && (a, b) in draws && (b, c) in draws && (c, Usd) in draws
    requires |draws[(Usd, a)]| > 0 && |draws[(a, b)]| > 0 && |draws[(b, c)]| > 0 && |draws[(c, Usd)]| > 0
    requires draws[(Usd, a)][0] == SourceSpot(Usd, a) && draws[(a, b)][0] == SourceSpot(a, b)
    requires draws[(b, c)][0] == SourceSpot(b, c) && draws[(c, Usd)][0] == SourceSpot(c, Usd)
    ensures var rates := CoverLegs(map[], path, draws, 4);
      && LegsQuoted(path, rates, 0)
      && LegRate(rates, path[0], path[1], 0) == SourceSpot(Usd, a)
      && LegRate(rates, path[1], path[2], 0) == SourceSpot(a, b)
      && LegRate(rates, path[2], path[3], 0) == SourceSpot(b, c)
      && LegRate(rates, path[3], path[4], 0) == SourceSpot(c, Usd)
  {
    var rates := DefaultLoopCover(a, b, c, draws);
    DefaultLoopQuoted(path, rates, SourceSpot(Usd, a), SourceSpot(a, b), SourceSpot(b, c), SourceSpot(c, Usd));
  }

  /** Quoting the filled table on day 0, the default loop's round with four
      fees has a factor above `1 + KnockIn`. */
  lemma DefaultLoopFactor(path: seq<string>, a: string, b: string, c: string, rates: map<Pair, seq<real>>)
    requires path == [Usd, a, b, c, Usd]
    requires a in Currencies && b in Currencies && c in Currencies
    requires a != Usd && b != Usd && c != Usd && a != b && a != c && b != c
    requires LegsQuoted(path, rates, 0)
    requires LegRate(rates, path[0], path[1], 0) == SourceSpot(Usd, a)
    requires LegRate(rates, path[1], path[2], 0) == SourceSpot(a, b)
    requires LegRate(rates, path[2], path[3], 0) == SourceSpot(b, c)
    requires LegRate(rates, path[3], path[4], 0) == SourceSpot(c, Usd)
    ensures PathFactor(path, rates, 0, true, 4) > 1.0 + KnockIn
  {
    var y1, y2, y3, y4 := SourceSpot(Usd, a), SourceSpot(a, b), SourceSpot(b, c), SourceSpot(c, Usd);
    FourLegFactor(path, rates, y1, y2, y3, y4);
    ThreeOthersBound(a, b, c);
    DefaultLoopFactorBound(y1, y2, y3, y4);
  }

  /** A five-entry loop whose four legs are stored directly, with day-0
      rates `y1 .. y4`, is quoted on day 0 at those rates. */
  lemma DefaultLoopQuoted(path: seq<string>, rates: map<Pair, seq<real>>, y1: real, y2: real, y3: real, y4: real)
    requires |path| == 5
    requires forall i :: 0 <= i < 4 ==> (path[i], path[i + 1]) in rates && |rates[(path[i], path[i + 1])]| > 0
    requires rates[(path[0], path[1])][0] == y1 && rates[(path[1], path[2])][0] == y2
    requires rates[(path[2], path[3])][0] == y3 && rates[(path[3], path[4])][0] == y4
    ensures LegsQuoted(path, rates, 0)
    ensures LegRate(rates, path[0], path[1], 0) == y1 && LegRate(rates, path[1], path[2], 0) == y2
    ensures LegRate(rates, path[2], path[3], 0) == y3 && LegRate(rates, path[3], path[4], 0) == y4
  {
  }

  /** The day-0 factor of a four-leg loop, written out leg by leg. */
  lemma FourLegFactor(path: seq<string>, rates: map<Pair, seq<real>>, y1: real, y2: real, y3: real, y4: real)
    requires |path| == 5 && LegsQuoted(path, rates, 0)
    requires LegRate(rates, path[0], path[1], 0) == y1 && LegRate(rates, path[1], path[2], 0) == y2
    requires LegRate(rates, path[2], path[3], 0) == y3 && LegRate(rates, path[3], path[4], 0) == y4
    ensures var f := FeeFactor(true);
      PathFactor(path, rates, 0, true, 4) == (((y1 * f) * y2 * f) * y3 * f) * y4 * f
  {
    var f := FeeFactor(true);
    assert PathFactor(path, rates, 0, true, 0) == 1.0;
    var p1 := PathFactor(path, rates, 0, true, 1);
    var p2 := PathFactor(path, rates, 0, true, 2);
    var p3 := PathFactor(path, rates, 0, true, 3);
    assert p1 == 1.0 * y1 * f;
    assert p2 == p1 * y2 * f;
    assert p3 == p2 * y3 * f;
    assert PathFactor(path, rates, 0, true, 4) == p3 * y4 * f;
  }

  /** With three rates whose product is at least 6.45 · 0.72 · 0.72, four fees
      still leave a factor above `1 + KnockIn`. */
  lemma DefaultLoopFactorBound(x1: real, x2: real, x3: real, x4: real)
    requires x1 * x2 * x3 >= 6.45 * 0.72 * 0.72 && x4 == 1.0
    ensures var f := FeeFactor(true); (((x1 * f) * x2 * f) * x3 * f) * x4 * f > 1.0 + KnockIn
  {
    var f := FeeFactor(true);
    var product := x1 * x2 * x3;
    assert (((x1 * f) * x2 * f) * x3 * f) * x4 * f == product * (f * f * f * f);
  }

  /** Covering the default loop stores each of its four legs from its own
      draw, since no two legs share a pair of currencies. */
  lemma DefaultLoopCover(a: string, b: string, c: string, draws: map<Pair, seq<real>>) returns (rates: map<Pair, seq<real>>)
    requires a != Usd && b != Usd && c != Usd && a != b && a != c && b != c
    requires (Usd, a) in draws && (a, b) in draws && (b, c) in draws && (c, Usd) in draws
    ensures rates == CoverLegs(map[], [Usd, a, b, c, Usd], draws, 4)
    ensures rates == map[(Usd, a) := draws[(Usd, a)], (a, b) := draws[(a, b)], (b, c) := draws[(b, c)],
                         (c, Usd) := draws[(c, Usd)]]
  {
    var path := [Usd, a, b, c, Usd];
    var m1 := map[(Usd, a) := draws[(Usd, a)]];
    var m2 := m1[(a, b) := draws[(a, b)]];
    var m3 := m2[(b, c) := draws[(b, c)]];
    assert CoverLegs(map[], path, draws, 1) == m1;
    assert CoverLegs(map[], path, draws, 2) == m2;
    assert CoverLegs(map[], path, draws, 3) == m3;
    rates := m3[(c, Usd) := draws[(c, Usd)]];
  }

  /** Three distinct currencies other than USD include JPY or CNY, so the
      product of their USD rates, which the first three legs of the loop
      quote, is at least 6.45 · 0.72 · 0.72; the last leg quotes 1. */
  lemma ThreeOthersBound(a: string, b: string, c: string)
    requires a in Currencies && b in Currencies && c in Currencies
    requires a != Usd && b != Usd && c != Usd && a != b && a != c && b != c
    ensures SourceSpot(Usd, a) * SourceSpot(a, b) * SourceSpot(b, c) >= 6.45 * 0.72 * 0.72
    ensures SourceSpot(c, Usd) == 1.0
  {
    SourceSpotValues(a, b);
    SourceSpotValues(b, c);
    SourceSpotValues(c, a);
    assert SeedRates[(Usd, a)] * SeedRates[(Usd, b)] * SeedRates[(Usd, c)] >= 6.45 * 0.72 * 0.72;
  }

  /** What `get_results` reports. */
  datatype Results = Results(currencyPath: seq<string>, dailyProfits: seq<real>, isTriggered: bool,
                             triggerDay: int, exitDay: int, maxProfit: real, finalProfit: real)

  /** The holding period of a triggered run: to the exit day if it exited,
      else to the end of the simulation; 0 for a run that never triggered. */
  function HoldingPeriod(isTriggered: bool, triggerDay: int, exitDay: int, simulationDays: int): int
  {
    if exitDay != -1 && isTriggered then exitDay - triggerDay
    else if isTriggered then simulationDays - triggerDay
    else 0
  }

  /** For a fresh run over `days + 1` profits the holding period lies between
      0 and `days`, and a run that exited held for at least a day. */
  lemma HoldingPeriodBounds(profits: seq<real>, days: nat)
    requires |profits| == days + 1
    ensures var r := ScanFlags(Fresh, profits);
      var h := HoldingPeriod(r.isTriggered, r.triggerDay, r.exitDay, days);
      && 0 <= h <= days
      && (r.isTriggered && r.exitDay != -1 ==> h >= 1)
      && (!r.isTriggered ==> h == 0)
  {
    FreshFlags(profits);
  }

  class ArbitrageSimulation {
    const startCurrency: string
    const pathLength: int
    const days: nat
    const currencyPath: seq<string>
    var ratesDict: map<Pair, seq<real>>
    var dailyProfits: seq<real>
    var isTriggered: bool
    var triggerDay: int
    var exitDay: int

    /** The stored rate paths cover every simulated day with non-zero rates. */
    predicate Valid()
      reads this
    {
      RatePaths(ratesDict, days)
    }

    function CurrentFlags(): Flags
      reads this
    {
      Flags(isTriggered, triggerDay, exitDay)
    }

    constructor (startCurrency: string, pathLength: int, days: nat)
      ensures this.startCurrency == startCurrency && this.pathLength == pathLength && this.days == days
      ensures CurrencyLoop(currencyPath, startCurrency, pathLength)
      ensures ratesDict == map[] && dailyProfits == []
      ensures CurrentFlags() == Fresh
      ensures Valid()
    {
      this.startCurrency := startCurrency;
      this.pathLength := pathLength;
      this.days := days;
      var path := GenerateCurrencyPath(startCurrency, pathLength);
      this.currencyPath := path;
      ratesDict := map[];
      dailyProfits := [];
      isTriggered := false;
      triggerDay := -1;
      exitDay := -1;
    }

    /** Stores a simulated path for every leg not yet covered in either
      orientation (`draws` holds what the source's simulator returns: paths
      that start at the filled table's spot rate), then appends the profit of
      every day `0 .. days` and runs the flags over them. A fresh run of the
      default loop from USD knocks in on day 0. */
    method Simulate(draws: map<Pair, seq<real>>)
      modifies this
      requires Valid() && RatePaths(draws, days) && StartsAtSourceSpot(draws)
      requires forall i :: 0 <= i < |currencyPath| - 1 ==> (currencyPath[i], currencyPath[i + 1]) in draws
      ensures Valid()
      ensures ratesDict == CoverLegs(old(ratesDict), currencyPath, draws, Legs(currencyPath))
      ensures forall day: nat :: day <= days ==> LegsQuoted(currencyPath, ratesDict, day)
      ensures dailyProfits == old(dailyProfits) + DailyProfits(currencyPath, ratesDict, days + 1)
      ensures CurrentFlags() == ScanFlags(old(CurrentFlags()), DailyProfits(currencyPath, ratesDict, days + 1))
      ensures CurrencyLoop(currencyPath, Usd, 4) && old(ratesDict) == map[] && old(CurrentFlags()) == Fresh ==>
                isTriggered && triggerDay == 0
    {
      CoverRates(draws);
      RunDays();
      if CurrencyLoop(currencyPath, Usd, 4) && old(ratesDict) == map[] && old(CurrentFlags()) == Fresh {
        DefaultLoopKnocksInOnDayZero(currencyPath, draws, days);
      }
    }

    /** The first loop of `simulate`: a simulated path for every leg not yet
      covered in either orientation. */
    method CoverRates(draws: map<Pair, seq<real>>)
      modifies this
      requires Valid() && RatePaths(draws, days)
      requires forall i :: 0 <= i < |currencyPath| - 1 ==> (currencyPath[i], currencyPath[i + 1]) in draws
      ensures Valid()
      ensures ratesDict == CoverLegs(old(ratesDict), currencyPath, draws, Legs(currencyPath))
      ensures forall day: nat :: day <= days ==> LegsQuoted(currencyPath, ratesDict, day)
      ensures dailyProfits == old(dailyProfits) && CurrentFlags() == old(CurrentFlags())
    {
      var i := 0;
      while i < |currencyPath| - 1
        invariant 0 <= i <= Legs(currencyPath)
        invariant ratesDict == CoverLegs(old(ratesDict), currencyPath, draws, i)
        invariant dailyProfits == old(dailyProfits) && CurrentFlags() == old(CurrentFlags())
      {
        var fromCurr, toCurr := currencyPath[i], currencyPath[i + 1];
        if (fromCurr, toCurr) !in ratesDict && (toCurr, fromCurr) !in ratesDict {
          ratesDict := ratesDict[(fromCurr, toCurr) := draws[(fromCurr, toCurr)]];
        }
        i := i + 1;
      }
      CoverLegsQuotes(old(ratesDict), currencyPath, draws, days, Legs(currencyPath));
    }

    /** The second loop of `simulate`: the profit of every day `0 .. days`,
      appended, with the knock-in and knock-out flags updated day by day. */
    method RunDays()
      modifies this
      requires forall day: nat :: day <= days ==> LegsQuoted(currencyPath, ratesDict, day)
      ensures ratesDict == old(ratesDict)
      ensures dailyProfits == old(dailyProfits) + DailyProfits(currencyPath, ratesDict, days + 1)
      ensures CurrentFlags() == ScanFlags(old(CurrentFlags()), DailyProfits(currencyPath, ratesDict, days + 1))
    {
      ghost var rates, profits0, flags0 := ratesDict, dailyProfits, CurrentFlags();
      var day := 0;
      while day < days + 1
        invariant 0 <= day <= days + 1
        invariant ratesDict == rates
        invariant dailyProfits == profits0 + DailyProfits(currencyPath, rates, day)
        invariant CurrentFlags() == ScanFlags(flags0, DailyProfits(currencyPath, rates, day))
      {
        DayStep(currencyPath, rates, flags0, day);
        RecordDay(day);
        day := day + 1;
      }
    }

    /** One day of the second loop: its profit is appended and the flags
        take one step. */
    method RecordDay(day: nat)
      modifies this
      requires LegsQuoted(currencyPath, ratesDict, day)
      ensures ratesDict == old(ratesDict)
      ensures dailyProfits == old(dailyProfits) + [DayProfit(currencyPath, ratesDict, day)]
      ensures CurrentFlags() == StepFlags(old(CurrentFlags()), day, DayProfit(currencyPath, ratesDict, day))
    {
      var profit := ArbitrageProfit(currencyPath, day, ratesDict, true);
      dailyProfits := dailyProfits + [profit];
      if !isTriggered && profit > KnockIn {
        isTriggered := true;
        triggerDay := day;
      }
      if isTriggered && exitDay == -1 && profit < KnockOut {
        exitDay := day;
      }
    }

    /** The results: the loop, the profits and flags, the largest profit and
      the last one (0 for both when there are no profits). */
    function GetResults(): (r: Results)
      reads this
      ensures r.currencyPath == currencyPath && r.dailyProfits == dailyProfits
      ensures r.isTriggered == isTriggered && r.triggerDay == triggerDay && r.exitDay == exitDay
      ensures |dailyProfits| > 0 ==> r.maxProfit in dailyProfits &&
                                     forall d :: 0 <= d < |dailyProfits| ==> dailyProfits[d] <= r.maxProfit
      ensures |dailyProfits| > 0 ==> r.finalProfit == dailyProfits[|dailyProfits| - 1]
      ensures |dailyProfits| == 0 ==> r.maxProfit == 0.0 && r.finalProfit == 0.0
    {
      Results(currencyPath, dailyProfits, isTriggered, triggerDay, exitDay,
              if |dailyProfits| > 0 then SeqMax(dailyProfits) else 0.0,
              if |dailyProfits| > 0 then dailyProfits[|dailyProfits| - 1] else 0.0)
    }
  }
}
