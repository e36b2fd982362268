/** The rate tables of the volatility-triggered arbitrage swap: the currency
    list, interest rates, pair volatilities and USD-based seed rates, the
    cross-rate fill that completes the seed table in place, the two table
    lookups, and the interest-parity forward rate and CIP basis. */
module ArbitrageRates {

  type Pair = (string, string)

  const Usd: string := "USD"
  const Currencies: seq<string> := ["USD", "JPY", "CNY", "GBP", "EUR"]

  /** Annual interest rate of each currency. */
  const InterestRates: map<string, real> :=
    map["USD" := 0.0300, "JPY" := 0.0010, "CNY" := 0.0250, "GBP" := 0.0350, "EUR" := 0.0200]

  /** Volatility of each unordered pair, listed once in one orientation. */
  const Volatilities: map<Pair, real> :=
    map[("USD", "JPY") := 0.0080, ("USD", "CNY") := 0.0060, ("USD", "GBP") := 0.0070,
        ("USD", "EUR") := 0.0065, ("JPY", "CNY") := 0.0085, ("JPY", "GBP") := 0.0090,
        ("JPY", "EUR") := 0.0075, ("CNY", "GBP") := 0.0095, ("CNY", "EUR") := 0.0080,
        ("GBP", "EUR") := 0.0065]

  const DefaultVolatility: real := 0.0080

  /** The seed of the rate table: the USD row. */
  const SeedRates: map<Pair, real> :=
    map[("USD", "USD") := 1.0, ("USD", "JPY") := 110.0, ("USD", "CNY") := 6.45,
        ("USD", "GBP") := 0.72, ("USD", "EUR") := 0.84]

  predicate Distinct(s: seq<string>)
  {
    forall a, b :: 0 <= a < b < |s| ==> s[a] != s[b]
  }

  /** The volatility of a pair: its table entry in either orientation, else
      the default. */
  function GetVolatility(from: string, to: string): (v: real)
    ensures v > 0.0
    ensures (from, to) in Volatilities ==> v == Volatilities[(from, to)]
    ensures (from, to) !in Volatilities && (to, from) in Volatilities ==> v == Volatilities[(to, from)]
    ensures (from, to) !in Volatilities && (to, from) !in Volatilities ==> v == DefaultVolatility
  {
    if (from, to) in Volatilities then Volatilities[(from, to)]
    else if (to, from) in Volatilities then Volatilities[(to, from)]
    else DefaultVolatility
  }

  /** No pair is listed in both orientations, so the lookup is symmetric. */
  lemma VolatilitySymmetric(a: string, b: string)
    ensures GetVolatility(a, b) == GetVolatility(b, a)
  {
    if (a, b) in Volatilities {
      assert (b, a) !in Volatilities;
    }
  }

  /** Every pair of distinct listed currencies has its own entry: the default
      is only reached for currencies outside the list or for a currency with
      itself. */
  lemma VolatilityTableComplete(a: string, b: string)
    requires a in Currencies && b in Currencies && a != b
    ensures (a, b) in Volatilities || (b, a) in Volatilities
  {
  }

  /** The rate from one currency to another in a rate table: 1 for a currency
      with itself, the direct entry, else the reciprocal of the reverse one,
      else 1.  Dividing by a zero reverse entry fails in the source. */
  function GetRate(rates: map<Pair, real>, from: string, to: string): (r: real)
    requires from != to && (from, to) !in rates && (to, from) in rates ==> rates[(to, from)] != 0.0
    ensures from == to ==> r == 1.0
    ensures from != to && (from, to) in rates ==> r == rates[(from, to)]
  {
    if from == to then 1.0
    else if (from, to) in rates then rates[(from, to)]
    else if (to, from) in rates then 1.0 / rates[(to, from)]
    else 1.0
  }

  /** A pair stored in one orientation only is quoted consistently both ways. */
  lemma RateReciprocal(rates: map<Pair, real>, a: string, b: string)
    requires a != b && (b, a) in rates && (a, b) !in rates && rates[(b, a)] != 0.0
    ensures GetRate(rates, a, b) * GetRate(rates, b, a) == 1.0
  {
  }

  /** A pair with no entry at all is quoted at par. */
  lemma RateUnknownPair(rates: map<Pair, real>, a: string, b: string)
    requires (a, b) !in rates && (b, a) !in rates
    ensures GetRate(rates, a, b) == 1.0
  {
  }

  /** The shape of the seed the fill works on: USD first in a list of distinct
      currencies, and the seed is exactly a USD row with a non-zero rate for
      every listed currency. */
  predicate SeedShape(currencies: seq<string>, seed: map<Pair, real>)
  {
    && Distinct(currencies) && |currencies| > 0 && currencies[0] == Usd
    && (forall p :: p in seed ==> p.0 == Usd && p.1 in currencies && seed[p] != 0.0)
    && (forall c :: c in currencies ==> (Usd, c) in seed)
  }

  /** What the fill stores for a pair of distinct currencies without a seed
      entry.  Visiting `(x, USD)` finds no `(x, USD)` entry yet and stores the
      default 1; every later `(x, y)` then finds `(x, USD) = 1` and stores
      `1 * seed(USD, y)`. */
  function FilledWith(seed: map<Pair, real>, x: string, y: string): real
  {
    if (x, y) in seed then seed[(x, y)]
    else if y == Usd then 1.0
    else if (Usd, y) in seed then seed[(Usd, y)]
    else 1.0
  }

  /** Base `currencies[a]` with quote `currencies[b]` comes before position
      `(i, j)` in the loop order. */
  predicate Before(a: nat, b: nat, i: nat, j: nat)
  {
    a < i || (a == i && b < j)
  }

  /** Every entry is a seed entry or a visited pair of distinct currencies. */
  predicate KeysVisited(currencies: seq<string>, seed: map<Pair, real>, rates: map<Pair, real>, i: nat, j: nat)
    requires i <= |currencies| && j <= |currencies|
  {
    forall p :: p in rates ==>
      p in seed || (p.0 != p.1 && p.1 in currencies &&
                    (p.0 in currencies[..i] || (i < |currencies| && p.0 == currencies[i] && p.1 in currencies[..j])))
  }

  predicate SeedKept(seed: map<Pair, real>, rates: map<Pair, real>)
  {
    forall p :: p in seed ==> p in rates && rates[p] == seed[p]
  }

  /** Every visited pair of distinct currencies holds its `FilledWith` value. */
  predicate VisitedFilled(currencies: seq<string>, seed: map<Pair, real>, rates: map<Pair, real>, i: nat, j: nat)
  {
    forall a, b :: 0 <= a < |currencies| && 0 <= b < |currencies| && a != b && Before(a, b, i, j) ==>
      (currencies[a], currencies[b]) in rates &&
      rates[(currencies[a], currencies[b])] == FilledWith(seed, currencies[a], currencies[b])
  }

  /** The table after the bases `currencies[..i]` and, for base
      `currencies[i]`, the quotes `currencies[..j]` have been visited. */
  predicate FillState(currencies: seq<string>, seed: map<Pair, real>, rates: map<Pair, real>, i: nat, j: nat)
    requires i <= |currencies| && j <= |currencies|
  {
    KeysVisited(currencies, seed, rates, i, j) && SeedKept(seed, rates) && VisitedFilled(currencies, seed, rates, i, j)
  }

  /** The table the fill leaves: the seed entries unchanged, every ordered
      pair of distinct currencies added and nothing else, 1 for every
      `(x, USD)` and the seed `(USD, y)` rate for every other `(x, y)`. */
  ghost predicate FillResult(currencies: seq<string>, seed: map<Pair, real>, rates: map<Pair, real>)
  {
    && (forall p :: p in rates <==> p in seed || (p.0 in currencies && p.1 in currencies && p.0 != p.1))
    && (forall p :: p in seed ==> p in rates && rates[p] == seed[p])
    && (forall x :: x in currencies && x != Usd ==> (x, Usd) in rates && rates[(x, Usd)] == 1.0)
    && (forall x, y :: x in currencies && y in currencies && x != Usd && y != Usd && x != y ==>
          (x, y) in rates && (Usd, y) in seed && rates[(x, y)] == seed[(Usd, y)])
  }

  /** The nested loop that completes the seed table in place. */
  method FillCrossRates(currencies: seq<string>, seed: map<Pair, real>) returns (rates: map<Pair, real>)
    requires SeedShape(currencies, seed)
    ensures FillResult(currencies, seed, rates)
  {
    rates := seed;
    var i := 0;
    while i < |currencies|
      invariant 0 <= i <= |currencies|
      invariant FillState(currencies, seed, rates, i, 0)
    {
      rates := VisitRow(currencies, seed, rates, i);
      i := i + 1;
    }
    FillComplete(currencies, seed, rates);
  }

  /** The inner loop: all quotes of base `currencies[i]`. */
  method VisitRow(currencies: seq<string>, seed: map<Pair, real>, rates: map<Pair, real>, i: nat)
    returns (next: map<Pair, real>)
    requires SeedShape(currencies, seed) && i < |currencies|
    requires FillState(currencies, seed, rates, i, 0)
    ensures FillState(currencies, seed, next, i + 1, 0)
  {
    next := rates;
    var j := 0;
    while j < |currencies|
      invariant 0 <= j <= |currencies|
      invariant FillState(currencies, seed, next, i, j)
    {
      next := VisitPair(currencies, seed, next, i, j);
      j := j + 1;
    }
    FillNextRow(currencies, seed, next, i);
  }

  /** The finished table, read off the loop's final state. */
  lemma FillComplete(currencies: seq<string>, seed: map<Pair, real>, rates: map<Pair, real>)
    requires SeedShape(currencies, seed)
    requires FillState(currencies, seed, rates, |currencies|, 0)
    ensures forall p :: p in rates <==> p in seed || (p.0 in currencies && p.1 in currencies && p.0 != p.1)
    ensures forall p :: p in seed ==> rates[p] == seed[p]
    ensures forall x :: x in currencies && x != Usd ==> rates[(x, Usd)] == 1.0
    ensures forall x, y :: x in currencies && y in currencies && x != Usd && y != Usd && x != y ==>
              rates[(x, y)] == seed[(Usd, y)]
  {
    FillCompleteKeys(currencies, seed, rates);
    forall x | x in currencies && x != Usd
      ensures rates[(x, Usd)] == 1.0
    {
      FillCompleteToUsd(currencies, seed, rates, x);
    }
    forall x, y | x in currencies && y in currencies && x != Usd && y != Usd && x != y
      ensures rates[(x, y)] == seed[(Usd, y)]
    {
      FillCompleteCross(currencies, seed, rates, x, y);
    }
  }

  /** One step of the inner loop: visiting base `currencies[i]` with quote
      `currencies[j]` skips the same currency and pairs already present, and
      otherwise stores the cross rate through USD when both of its legs are
      present and 1 when not. */
  method VisitPair(currencies: seq<string>, seed: map<Pair, real>, rates: map<Pair, real>, i: nat, j: nat)
    returns (next: map<Pair, real>)
    requires SeedShape(currencies, seed) && i < |currencies| && j < |currencies|
    requires FillState(currencies, seed, rates, i, j)
    ensures FillState(currencies, seed, next, i, j + 1)
    ensures next == if currencies[i] == currencies[j] || (currencies[i], currencies[j]) in rates then rates
                    else rates[(currencies[i], currencies[j]) := FilledWith(seed, currencies[i], currencies[j])]
  {
    var base, quote := currencies[i], currencies[j];
    FillStep(currencies, seed, rates, i, j);
    if base != quote && (base, quote) !in rates {
      var value;
      if (base, Usd) in rates && (Usd, quote) in rates {
        // The default of the first lookup is evaluated before the lookup.
        var fallback := 1.0 / rates[(Usd, base)];
        var baseToUsd := if (base, Usd) in rates then rates[(base, Usd)] else fallback;
        var usdToQuote := if (Usd, quote) in rates then rates[(Usd, quote)] else 1.0;
        value := baseToUsd * usdToQuote;
      } else {
        value := 1.0;
      }
      assert value == FilledWith(seed, base, quote);
      FillAdd(currencies, seed, rates, i, j);
      next := rates[(base, quote) := value];
    } else {
      FillSkip(currencies, seed, rates, i, j);
      next := rates;
    }
  }

  /** The finished table holds the seed and every ordered pair of distinct
      currencies, and nothing else. */
  lemma FillCompleteKeys(currencies: seq<string>, seed: map<Pair, real>, rates: map<Pair, real>)
    requires FillState(currencies, seed, rates, |currencies|, 0)
    ensures forall p :: p in rates <==> p in seed || (p.0 in currencies && p.1 in currencies && p.0 != p.1)
    ensures forall p :: p in seed ==> rates[p] == seed[p]
  {
    assert currencies[..|currencies|] == currencies;
    forall p: Pair | p.0 in currencies && p.1 in currencies && p.0 != p.1
      ensures p in rates
    {
      var a :| 0 <= a < |currencies| && currencies[a] == p.0;
      var b :| 0 <= b < |currencies| && currencies[b] == p.1;
      assert Before(a, b, |currencies|, 0);
    }
  }

  /** The finished table: 1 for `(x, USD)`. */
  lemma FillCompleteToUsd(currencies: seq<string>, seed: map<Pair, real>, rates: map<Pair, real>, x: string)
    requires SeedShape(currencies, seed)
    requires FillState(currencies, seed, rates, |currencies|, 0)
    requires x in currencies && x != Usd
    ensures (x, Usd) in rates && rates[(x, Usd)] == 1.0
  {
    var a :| 0 <= a < |currencies| && currencies[a] == x;
    assert (x, Usd) !in seed && Before(a, 0, |currencies|, 0);
    assert rates[(currencies[a], currencies[0])] == FilledWith(seed, x, Usd);
  }

  /** The finished table: the seed `(USD, y)` rate for `(x, y)`. */
  lemma FillCompleteCross(currencies: seq<string>, seed: map<Pair, real>, rates: map<Pair, real>, x: string, y: string)
    requires SeedShape(currencies, seed)
    requires FillState(currencies, seed, rates, |currencies|, 0)
    requires x in currencies && y in currencies && x != Usd && y != Usd && x != y
    ensures (x, y) in rates && rates[(x, y)] == seed[(Usd, y)]
  {
    var a :| 0 <= a < |currencies| && currencies[a] == x;
    var b :| 0 <= b < |currencies| && currencies[b] == y;
    assert (x, y) !in seed && Before(a, b, |currencies|, 0);
    assert rates[(currencies[a], currencies[b])] == FilledWith(seed, x, y);
  }

  /** Facts about the table just before visiting `(currencies[i], currencies[j])`. */
  lemma FillStep(currencies: seq<string>, seed: map<Pair, real>, rates: map<Pair, real>, i: nat, j: nat)
    requires SeedShape(currencies, seed) && i < |currencies| && j < |currencies|
    requires FillState(currencies, seed, rates, i, j)
    ensures (Usd, currencies[j]) in rates && rates[(Usd, currencies[j])] == seed[(Usd, currencies[j])]
    ensures (Usd, currencies[i]) in rates && rates[(Usd, currencies[i])] != 0.0
    ensures currencies[i] != currencies[j] && (currencies[i], currencies[j]) !in rates ==>
              currencies[i] != Usd && (currencies[i], currencies[j]) !in seed
    ensures currencies[i] != Usd && j == 0 ==> (currencies[i], Usd) !in rates
    ensures currencies[i] != Usd && j > 0 ==> (currencies[i], Usd) in rates && rates[(currencies[i], Usd)] == 1.0
  {
    var x := currencies[i];
    if x != Usd && j > 0 {
      assert (x, Usd) !in seed;
      assert rates[(currencies[i], currencies[0])] == FilledWith(seed, x, Usd);
    }
  }

  /** Visiting `(currencies[i], currencies[j])` when it is the same currency
      or already has an entry (which is then a seed entry) changes nothing. */
  lemma FillSkip(currencies: seq<string>, seed: map<Pair, real>, rates: map<Pair, real>, i: nat, j: nat)
    requires SeedShape(currencies, seed) && i < |currencies| && j < |currencies|
    requires FillState(currencies, seed, rates, i, j)
    requires currencies[i] == currencies[j] || (currencies[i], currencies[j]) in rates
    ensures FillState(currencies, seed, rates, i, j + 1)
  {
    assert currencies[..j + 1] == currencies[..j] + [currencies[j]];
  }

  /** Visiting a missing pair of distinct currencies adds it with its
      `FilledWith` value. */
  lemma FillAdd(currencies: seq<string>, seed: map<Pair, real>, rates: map<Pair, real>, i: nat, j: nat)
    requires i < |currencies| && j < |currencies|
    requires FillState(currencies, seed, rates, i, j)
    requires currencies[i] != currencies[j] && (currencies[i], currencies[j]) !in rates
    ensures FillState(currencies, seed,
                      rates[(currencies[i], currencies[j]) := FilledWith(seed, currencies[i], currencies[j])], i, j + 1)
  {
    var x, y := currencies[i], currencies[j];
    AddKeysVisited(currencies, seed, rates, i, j, FilledWith(seed, x, y));
    AddSeedKept(seed, rates, (x, y), FilledWith(seed, x, y));
    AddVisitedFilled(currencies, seed, rates, i, j);
  }

  lemma AddKeysVisited(currencies: seq<string>, seed: map<Pair, real>, rates: map<Pair, real>, i: nat, j: nat, v: real)
    requires i < |currencies| && j < |currencies| && currencies[i] != currencies[j]
    requires KeysVisited(currencies, seed, rates, i, j)
    ensures KeysVisited(currencies, seed, rates[(currencies[i], currencies[j]) := v], i, j + 1)
  {
    assert currencies[..j + 1] == currencies[..j] + [currencies[j]];
  }

  lemma AddSeedKept(seed: map<Pair, real>, rates: map<Pair, real>, p: Pair, v: real)
    requires SeedKept(seed, rates) && p !in rates
    ensures SeedKept(seed, rates[p := v])
  {
  }

  lemma AddVisitedFilled(currencies: seq<string>, seed: map<Pair, real>, rates: map<Pair, real>, i: nat, j: nat)
    requires i < |currencies| && j < |currencies| && (currencies[i], currencies[j]) !in rates
    requires VisitedFilled(currencies, seed, rates, i, j)
    ensures VisitedFilled(currencies, seed,
                          rates[(currencies[i], currencies[j]) := FilledWith(seed, currencies[i], currencies[j])], i, j + 1)
  {
    var after := rates[(currencies[i], currencies[j]) := FilledWith(seed, currencies[i], currencies[j])];
    forall a, b | 0 <= a < |currencies| && 0 <= b < |currencies| && a != b && Before(a, b, i, j + 1)
      ensures (currencies[a], currencies[b]) in after &&
              after[(currencies[a], currencies[b])] == FilledWith(seed, currencies[a], currencies[b])
    {
      if a != i || b != j {
        assert Before(a, b, i, j);
      }
    }
  }

  /** Finishing the quotes of base `currencies[i]` is starting base `i + 1`. */
  lemma FillNextRow(currencies: seq<string>, seed: map<Pair, real>, rates: map<Pair, real>, i: nat)
    requires i < |currencies|
    requires FillState(currencies, seed, rates, i, |currencies|)
    ensures FillState(currencies, seed, rates, i + 1, 0)
  {
    assert currencies[..i + 1] == currencies[..i] + [currencies[i]];
    assert currencies[..|currencies|] == currencies;
  }

  /** The source's seed has the shape the fill works on. */
  lemma SourceSeedShape()
    ensures SeedShape(Currencies, SeedRates)
  {
  }

  /** The filled source table is not consistent across currencies: JPY to USD
      is stored as 1 although USD to JPY is 110, so the loop USD, JPY, CNY,
      USD multiplies out to 709.5 instead of 1. */
  lemma SourceFillBreaksTriangle()
    ensures FilledWith(SeedRates, "JPY", Usd) * SeedRates[(Usd, "JPY")] == 110.0
    ensures SeedRates[(Usd, "JPY")] * FilledWith(SeedRates, "JPY", "CNY") * FilledWith(SeedRates, "CNY", Usd) == 709.5
  {
  }

  /** The rate `get_rate` quotes once the fill has run on the source's seed:
      1 for a currency with itself and for a pair with an unlisted currency,
      and the filled entry for two distinct listed ones. */
  function SourceSpot(from: string, to: string): real
  {
    if from == to then 1.0
    else if from in Currencies && to in Currencies then FilledWith(SeedRates, from, to)
    else 1.0
  }

  /** On the table the fill leaves on the source's seed, `get_rate` never
      divides by zero and quotes `SourceSpot`. */
  lemma SourceSpotIsGetRate(rates: map<Pair, real>, from: string, to: string)
    requires FillResult(Currencies, SeedRates, rates)
    ensures from != to && (from, to) !in rates && (to, from) in rates ==> rates[(to, from)] != 0.0
    ensures GetRate(rates, from, to) == SourceSpot(from, to)
  {
    if from != to {
      if from in Currencies && to in Currencies {
        FilledListedPair(rates, from, to);
      } else {
        FilledUnlistedPair(rates, from, to);
      }
    }
  }

  /** What the filled source table quotes: the seed rate from USD, 1 back to
      USD, and the seed rate of the quote currency from USD for a cross pair. */
  lemma SourceSpotValues(x: string, y: string)
    requires x in Currencies && y in Currencies && x != Usd && y != Usd && x != y
    ensures SourceSpot(Usd, x) == SeedRates[(Usd, x)]
    ensures SourceSpot(x, Usd) == 1.0
    ensures SourceSpot(x, y) == SeedRates[(Usd, y)]
  {
  }

  /** Two distinct listed currencies have their filled entry. */
  lemma FilledListedPair(rates: map<Pair, real>, from: string, to: string)
    requires FillResult(Currencies, SeedRates, rates)
    requires from != to && from in Currencies && to in Currencies
    ensures (from, to) in rates && rates[(from, to)] == FilledWith(SeedRates, from, to)
  {
    if from == Usd {
      assert (from, to) in SeedRates;
    } else {
      assert (from, to) !in SeedRates;
    }
  }

  /** A pair with an unlisted currency has no entry in either orientation. */
  lemma FilledUnlistedPair(rates: map<Pair, real>, from: string, to: string)
    requires FillResult(Currencies, SeedRates, rates)
    requires !(from in Currencies && to in Currencies)
    ensures (from, to) !in rates && (to, from) !in rates
  {
    assert (from, to) !in SeedRates && (to, from) !in SeedRates;
  }

  /** The cross rate through USD the fill means to store: from `x` to USD is
      the reciprocal of USD to `x`, and from `x` to `y` is USD to `y` over USD
      to `x`. */
  function IntendedCrossRate(seed: map<Pair, real>, x: string, y: string): (r: real)
    requires (Usd, x) in seed && (Usd, y) in seed && seed[(Usd, x)] != 0.0
    ensures r * seed[(Usd, x)] == seed[(Usd, y)]
  {
    seed[(Usd, y)] / seed[(Usd, x)]
  }

  /** The intended table is consistent: going through an intermediate
      currency gives the direct rate, a round trip gives 1, and the USD row
      is the seed itself. */
  lemma IntendedCrossRateConsistent(seed: map<Pair, real>, x: string, y: string, z: string)
    requires (Usd, x) in seed && (Usd, y) in seed && (Usd, z) in seed
    requires seed[(Usd, x)] != 0.0 && seed[(Usd, y)] != 0.0 && (Usd, Usd) in seed && seed[(Usd, Usd)] == 1.0
    ensures IntendedCrossRate(seed, x, y) * IntendedCrossRate(seed, y, z) == IntendedCrossRate(seed, x, z)
    ensures IntendedCrossRate(seed, x, y) * IntendedCrossRate(seed, y, x) == 1.0
    ensures IntendedCrossRate(seed, Usd, y) == seed[(Usd, y)]
  {
    var ux, uy, uz := seed[(Usd, x)], seed[(Usd, y)], seed[(Usd, z)];
    assert (uy / ux) * (uz / uy) == uz / ux by {
      assert (uy / ux) * (uz / uy) * ux == uz;
    }
    assert (uy / ux) * (ux / uy) == 1.0;
  }

  /** The year fraction of a day count. */
  function YearFraction(days: int): real
  {
    days as real / 365.0
  }

  /** Covered interest parity: the forward is the spot grown at the domestic
      (`from`) rate and discounted at the foreign (`to`) rate over `days`.
      Both currencies must have an interest rate, and the foreign growth
      factor must not be zero. */
  function ForwardRate(spot: real, from: string, to: string, days: int): (forward: real)
    requires from in InterestRates && to in InterestRates
    requires 1.0 + InterestRates[to] * YearFraction(days) != 0.0
    ensures forward * (1.0 + InterestRates[to] * YearFraction(days)) == spot * (1.0 + InterestRates[from] * YearFraction(days))
  {
    var t := YearFraction(days);
    spot * (1.0 + InterestRates[from] * t) / (1.0 + InterestRates[to] * t)
  }

  /** The forward is the spot for a zero horizon and for equal interest rates. */
  lemma ForwardIsSpot(spot: real, from: string, to: string, days: int)
    requires from in InterestRates && to in InterestRates
    requires days == 0 || InterestRates[from] == InterestRates[to]
    requires 1.0 + InterestRates[to] * YearFraction(days) != 0.0
    ensures ForwardRate(spot, from, to, days) == spot
  {
    var g := 1.0 + InterestRates[to] * YearFraction(days);
    assert ForwardRate(spot, from, to, days) * g == spot * g;
  }

  /** With the source's rates, which are not negative, the forward is defined
      for every horizon that is not negative. */
  lemma ForwardDefinedAhead(from: string, to: string, days: int)
    requires from in InterestRates && to in InterestRates && days >= 0
    ensures 1.0 + InterestRates[to] * YearFraction(days) > 0.0
  {
    assert InterestRates[to] >= 0.0;
    assert InterestRates[to] * YearFraction(days) >= 0.0;
  }

  /** The CIP basis: the foreign rate implied by spot and forward, linearised
      as `r_domestic - (forward / spot - 1) / t`, less the quoted foreign rate.
      The spot and the day count must not be zero. */
  function CipBasis(spot: real, forward: real, from: string, to: string, days: int): (basis: real)
    requires from in InterestRates && to in InterestRates
    requires spot != 0.0 && days != 0
    ensures basis * YearFraction(days) ==
              (InterestRates[from] - InterestRates[to]) * YearFraction(days) - (forward / spot - 1.0)
  {
    var t := YearFraction(days);
    var implied := InterestRates[from] - (forward / spot - 1.0) / t;
    implied - InterestRates[to]
  }

  /** A forward equal to the spot leaves the whole rate differential as basis. */
  lemma CipBasisOfFlatForward(spot: real, from: string, to: string, days: int)
    requires from in InterestRates && to in InterestRates && spot != 0.0 && days != 0
    ensures CipBasis(spot, spot, from, to, days) == InterestRates[from] - InterestRates[to]
  {
    assert spot / spot == 1.0;
  }

  /** The basis vanishes exactly when the forward over the spot is the growth
      factor `1 + (r_domestic - r_foreign) * t` of the rate differential. */
  lemma CipBasisZeroIff(spot: real, forward: real, from: string, to: string, days: int)
    requires from in InterestRates && to in InterestRates && spot != 0.0 && days != 0
    ensures CipBasis(spot, forward, from, to, days) == 0.0 <==>
              forward / spot == 1.0 + (InterestRates[from] - InterestRates[to]) * YearFraction(days)
  {
    BasisZeroAlgebra(CipBasis(spot, forward, from, to, days), YearFraction(days),
                     InterestRates[from] - InterestRates[to], forward / spot);
  }

  lemma BasisZeroAlgebra(b: real, t: real, d: real, q: real)
    requires t != 0.0 && b * t == d * t - (q - 1.0)
    ensures b == 0.0 <==> q == 1.0 + d * t
  {
  }

  /** The basis of the model's own parity forward is not zero: it is
      `(r_domestic - r_foreign) * r_foreign * t / (1 + r_foreign * t)`, because
      the basis replaces the ratio `(1 + r_domestic * t) / (1 + r_foreign * t)`
      by its linearisation `1 + (r_domestic - r_foreign) * t`. */
  lemma CipBasisOfParityForward(spot: real, from: string, to: string, days: int)
    requires from in InterestRates && to in InterestRates && spot != 0.0 && days != 0
    requires 1.0 + InterestRates[to] * YearFraction(days) != 0.0
    ensures var rd, rf, t := InterestRates[from], InterestRates[to], YearFraction(days);
      CipBasis(spot, ForwardRate(spot, from, to, days), from, to, days) * (1.0 + rf * t) == (rd - rf) * rf * t
  {
    var rd, rf, t := InterestRates[from], InterestRates[to], YearFraction(days);
    var g := 1.0 + rf * t;
    var f := ForwardRate(spot, from, to, days);
    var q := f / spot;
    assert q * spot == f;
    QuotientScaled(q, spot, f, g, 1.0 + rd * t);
    ParityAlgebra(CipBasis(spot, f, from, to, days), t, g, q, rd, rf);
  }

  /** If `q * s == f` and `f * g == s * h` with `s` not zero, then `q * g == h`. */
  lemma QuotientScaled(q: real, s: real, f: real, g: real, h: real)
    requires s != 0.0 && q * s == f && f * g == s * h
    ensures q * g == h
  {
    assert (q * g) * s == h * s;
    assert (q * g - h) * s == 0.0;
  }

  /** The algebra behind the basis of the parity forward. */
  lemma ParityAlgebra(b: real, t: real, g: real, q: real, rd: real, rf: real)
    requires t != 0.0 && g == 1.0 + rf * t && q * g == 1.0 + rd * t
    requires b * t == (rd - rf) * t - (q - 1.0)
    ensures b * g == (rd - rf) * rf * t
  {
    assert b * t * g == (rd - rf) * t * g - q * g + g;
    assert b * t * g == (rd - rf) * rf * t * t;
    assert (b * g - (rd - rf) * rf * t) * t == 0.0;
  }
}
