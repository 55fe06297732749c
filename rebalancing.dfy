/**
 * The rebalancer: weight-drift trade suggestions with whole-share sizing, and
 * Average-True-Range volatility bands around each position's cost price.
 */
module Rebalancing {
  import opened Wrappers
  import opened Types

  // =====================================================================
  // Number helpers
  // =====================================================================

  function Min(a: real, b: real): real {
    if a <= b then a else b
  }

  function MinInt(a: int, b: int): int {
    if a <= b then a else b
  }

  function Abs(x: real): real {
    if x < 0.0 then -x else x
  }

  function Max3(a: real, b: real, c: real): (m: real)
    ensures m >= a && m >= b && m >= c
    ensures m == a || m == b || m == c
  {
    if a >= b && a >= c then a else if b >= c then b else c
  }

  /** Python's `int(x)` on a decimal: rounds toward zero. */
  function Trunc(x: real): (n: int)
    ensures x >= 0.0 ==> n as real <= x < n as real + 1.0
    ensures x < 0.0 ==> n as real - 1.0 < x <= n as real && n <= 0
  {
    if x >= 0.0 then x.Floor else -((-x).Floor)
  }

  /** `math.ceil(x)`: the least integer at or above `x`. */
  function Ceil(x: real): (n: int)
    ensures n as real - 1.0 < x <= n as real
  {
    -((-x).Floor)
  }

  function Sum(s: seq<real>): real {
    if s == [] then 0.0 else Sum(s[..|s| - 1]) + s[|s| - 1]
  }

  // =====================================================================
  // Average True Range
  // =====================================================================

  /** One daily candle (opening price and volume play no part). */
  datatype Candle = Candle(high: real, low: real, close: real)

  /** pandas `tail(n)`: the last `n` rows; for negative `n`, all but the first `-n` rows. */
  function Tail(rows: seq<Candle>, n: int): (r: seq<Candle>)
    ensures |r| <= |rows| && r == rows[|rows| - |r|..]
    ensures n >= 0 ==> |r| == if n <= |rows| then n else |rows|
    ensures n < 0 ==> |r| == if -n <= |rows| then |rows| + n else 0
  {
    if n >= 0 then (if n <= |rows| then rows[|rows| - n..] else rows)
    else (if -n <= |rows| then rows[-n..] else [])
  }

  /** The True Range of a day, given the previous close when there is one. */
  function TrueRange(c: Candle, prevClose: Option<real>): real {
    match prevClose
    case None => c.high - c.low
    case Some(p) => Max3(c.high - c.low, Abs(c.high - p), Abs(c.low - p))
  }

  /** The True Ranges of consecutive days, the first one measured against `seed`, each later one against the day before. */
  function TrueRanges(days: seq<Candle>, seed: Option<real>): (r: seq<real>)
    ensures |r| == |days|
  {
    if days == [] then []
    else
      var prev := if |days| == 1 then seed else Some(days[|days| - 2].close);
      TrueRanges(days[..|days| - 1], seed) + [TrueRange(days[|days| - 1], prev)]
  }

  /** Each day's range is taken against the previous day's close, the first against the seed. */
  lemma {:induction false} TrueRangesAt(days: seq<Candle>, seed: Option<real>, i: int)
    requires 0 <= i < |days|
    ensures TrueRanges(days, seed)[i] == TrueRange(days[i], if i == 0 then seed else Some(days[i - 1].close))
  {
    if i < |days| - 1 {
      TrueRangesAt(days[..|days| - 1], seed, i);
    }
  }

  /**
   * What _calculate_atr returns: nothing for fewer rows than `period`; otherwise
   * the mean True Range over `tail(period + 1)` with its first row as the seed,
   * or over `tail(period)` unseeded when exactly `period` rows exist.
   */
  function Atr(rows: seq<Candle>, period: int): Option<real> {
    if |rows| < period then None
    else
      var seeded := |rows| >= period + 1;
      var data := Tail(rows, if seeded then period + 1 else period);
      var trs := WindowRanges(data, seeded);
      if trs == [] then None else Some(Sum(trs) / |trs| as real)
  }

  /** The True Ranges of the window; a seeded window's first row only supplies a close. */
  function WindowRanges(data: seq<Candle>, seeded: bool): seq<real> {
    if !seeded then TrueRanges(data, None)
    else if data == [] then []
    else TrueRanges(data[1..], Some(data[0].close))
  }

  /** _calculate_atr, row by row as the source iterates. */
  method CalculateAtr(rows: seq<Candle>, period: int) returns (atr: Option<real>)
    ensures atr == Atr(rows, period)
  {
    if |rows| < period {
      return None;
    }
    var hasSeed := |rows| >= period + 1;
    var data := Tail(rows, if hasSeed then period + 1 else period);
    var trueRanges: seq<real> := [];
    var prevClose: Option<real> := None;
    ghost var start := if hasSeed && data != [] then 1 else 0;
    ghost var seed := if hasSeed && data != [] then Some(data[0].close) else None;
    for i := 0 to |data|
      invariant i >= start ==> trueRanges == TrueRanges(data[start..i], seed)
      invariant i < start ==> i == 0 && trueRanges == []
      invariant i > 0 ==> prevClose == Some(data[i - 1].close)
      invariant i == 0 ==> prevClose == None
    {
      if i == 0 && hasSeed {
        prevClose := Some(data[i].close);
        continue;
      }
      var tr := TrueRange(data[i], prevClose);
      assert data[start..i + 1][..i - start] == data[start..i];
      trueRanges := trueRanges + [tr];
      prevClose := Some(data[i].close);
    }
    assert data[start..|data|] == data[start..];
    if trueRanges == [] {
      return None;
    }
    return Some(Sum(trueRanges) / |trueRanges| as real);
  }

  /**
   * With at least `period >= 1` rows the ATR is the mean of exactly `period` True
   * Ranges of the last `period` days, seeded by the close before them when there is one.
   */
  lemma AtrOfLastPeriod(rows: seq<Candle>, period: int)
    requires period >= 1 && |rows| >= period
    ensures |rows| > period ==>
      Atr(rows, period) == Some(Sum(TrueRanges(rows[|rows| - period..], Some(rows[|rows| - period - 1].close))) / period as real)
    ensures |rows| == period ==> Atr(rows, period) == Some(Sum(TrueRanges(rows, None)) / period as real)
  {
    if |rows| > period {
      var data := Tail(rows, period + 1);
      assert data[1..] == rows[|rows| - period..];
      assert data[0] == rows[|rows| - period - 1];
    } else {
      assert Tail(rows, period) == rows;
    }
  }

  /** Fewer rows than the period, or a zero period, give no ATR. */
  lemma AtrUnavailable(rows: seq<Candle>, period: int)
    requires |rows| < period || period == 0
    ensures Atr(rows, period).None?
  {
  }

  /** A True Range of a candle whose high is at least its low is non-negative. */
  lemma {:induction false} TrueRangesNonNegative(days: seq<Candle>, seed: Option<real>)
    requires WellFormedCandles(days)
    ensures Sum(TrueRanges(days, seed)) >= 0.0
  {
    if days != [] {
      TrueRangesNonNegative(days[..|days| - 1], seed);
    }
  }

  /** Candles whose high is at least their low. */
  ghost predicate WellFormedCandles(rows: seq<Candle>) {
    forall i :: 0 <= i < |rows| ==> rows[i].low <= rows[i].high
  }

  /** On candles whose high is at least their low the ATR is non-negative. */
  lemma AtrNonNegative(rows: seq<Candle>, period: int)
    requires WellFormedCandles(rows)
    requires Atr(rows, period).Some?
    ensures Atr(rows, period).value >= 0.0
  {
    var seeded := |rows| >= period + 1;
    var data := Tail(rows, if seeded then period + 1 else period);
    assert WellFormedCandles(data) by {
      forall i | 0 <= i < |data| ensures data[i].low <= data[i].high {
        assert data[i] == rows[|rows| - |data| + i];
      }
    }
    var trs := WindowRanges(data, seeded);
    if seeded {
      assert WellFormedCandles(data[1..]) by {
        forall i | 0 <= i < |data| - 1 ensures data[1..][i].low <= data[1..][i].high {
          assert data[1..][i] == data[i + 1];
        }
      }
      TrueRangesNonNegative(data[1..], Some(data[0].close));
    } else {
      TrueRangesNonNegative(data, None);
    }
    MeanNonNegative(trs);
  }

  lemma MeanNonNegative(s: seq<real>)
    requires Sum(s) >= 0.0 && s != []
    ensures Sum(s) / |s| as real >= 0.0
  {
  }

  /** The overnight-gap case: the seed's close of 100 turns a 107/104 day into a range of 7. */
  lemma AtrGapExample()
    ensures Atr([Candle(101.0, 99.0, 100.0), Candle(107.0, 104.0, 106.0),
                 Candle(108.0, 105.0, 107.0), Candle(109.0, 106.0, 108.0)], 3) == Some(13.0 / 3.0)
  {
    var rows := [Candle(101.0, 99.0, 100.0), Candle(107.0, 104.0, 106.0),
                 Candle(108.0, 105.0, 107.0), Candle(109.0, 106.0, 108.0)];
    AtrOfLastPeriod(rows, 3);
    var days := rows[1..];
    assert days[..2] == [days[0], days[1]] && days[..1] == [days[0]] && days[..2][..1] == days[..1];
    assert days[..1][..0] == [];
    assert TrueRange(days[0], Some(100.0)) == 7.0;
    assert TrueRanges(days[..1], Some(100.0)) == [7.0];
    assert TrueRange(days[1], Some(106.0)) == 3.0;
    assert TrueRanges(days[..2], Some(100.0)) == [7.0, 3.0];
    assert TrueRange(days[2], Some(107.0)) == 3.0;
    var trs := TrueRanges(days, Some(100.0));
    assert trs == [7.0, 3.0, 3.0];
    assert trs[..2] == [7.0, 3.0] && trs[..2][..1] == [7.0] && trs[..2][..1][..0] == [];
    assert Sum([7.0]) == 7.0;
    assert Sum([7.0, 3.0]) == 10.0;
    assert Sum(trs) == 13.0;
    assert rows[|rows| - 3..] == days;
  }

  // =====================================================================
  // Weight-based rebalancing
  // =====================================================================

  /** Whole shares a BUY of value `deltaValue` buys, capped by the cash: `int(min(|delta|, cash) / price)`. */
  function BuyQuantity(deltaValue: real, availableCash: real, price: real): int
    requires price != 0.0
  {
    Trunc(Min(Abs(deltaValue), availableCash) / price)
  }

  /** Whole shares a SELL of value `-deltaValue` sells: the share gap rounded up, capped by `int(quantity)`. */
  function SellQuantity(deltaValue: real, price: real, quantity: real): int
    requires price != 0.0
  {
    MinInt(Ceil(Abs(deltaValue / price)), Trunc(quantity))
  }

  /** `market_value / total_nav`. */
  function Weight(marketValue: real, totalNav: real): real
    requires totalNav != 0.0
  {
    marketValue / totalNav
  }

  /** `target_weight * total_nav - market_value`: positive when the position is under target. */
  function DeltaValue(targetWeight: real, totalNav: real, marketValue: real): real {
    targetWeight * totalNav - marketValue
  }

  /** A suggestion of `shares` whole shares at the last price, worth their cost at that price. */
  function Proposal(pos: PositionRow, action: TradeAction, currentWeight: real, targetWeight: real, shares: int): RebalanceSuggestion {
    RebalanceSuggestion(pos.symbol, pos.name, action, "weight", currentWeight, targetWeight, pos.lastPrice, shares, shares as real * pos.lastPrice)
  }

  /**
   * The suggestion for one position, or nothing when it has no target weight,
   * its drift is within the threshold, its price is zero, or the rounded
   * quantity is not positive.
   */
  function SuggestionFor(pos: PositionRow, totalNav: real, availableCash: real, config: PortfolioConfig): Option<RebalanceSuggestion>
    requires totalNav != 0.0
  {
    if pos.symbol !in config.targetAllocations then None
    else
      var targetWeight := config.targetAllocations[pos.symbol];
      var currentWeight := Weight(pos.marketValue, totalNav);
      if Abs(currentWeight - targetWeight) <= config.rebalanceThreshold || pos.lastPrice == 0.0 then None
      else
        var deltaValue := DeltaValue(targetWeight, totalNav, pos.marketValue);
        var buy := deltaValue > 0.0;
        var shares :=
          if buy then BuyQuantity(deltaValue, availableCash, pos.lastPrice)
          else SellQuantity(deltaValue, pos.lastPrice, pos.quantity);
        if shares <= 0 then None
        else Some(Proposal(pos, if buy then BuyAction else SellAction, currentWeight, targetWeight, shares))
  }

  /** The suggestions for the positions, in input order, at most one each. */
  function Suggestions(positions: seq<PositionRow>, totalNav: real, availableCash: real, config: PortfolioConfig): (r: seq<RebalanceSuggestion>)
    ensures |r| <= |positions|
    ensures totalNav == 0.0 ==> r == []
  {
    if totalNav == 0.0 || positions == [] then []
    else
      var last := positions[|positions| - 1];
      Suggestions(positions[..|positions| - 1], totalNav, availableCash, config)
        + (match SuggestionFor(last, totalNav, availableCash, config) case Some(s) => [s] case None => [])
  }

  /** weight_based_rebalance. */
  method WeightBasedRebalance(positions: seq<PositionRow>, totalNav: real, availableCash: real, config: PortfolioConfig)
    returns (suggestions: seq<RebalanceSuggestion>)
    ensures suggestions == Suggestions(positions, totalNav, availableCash, config)
  {
    suggestions := [];
    if totalNav == 0.0 {
      return;
    }
    for i := 0 to |positions|
      invariant suggestions == Suggestions(positions[..i], totalNav, availableCash, config)
    {
      assert positions[..i + 1][..i] == positions[..i];
      var pos := positions[i];
      if pos.symbol !in config.targetAllocations {
        continue;
      }
      var targetWeight := config.targetAllocations[pos.symbol];
      var currentWeight := Weight(pos.marketValue, totalNav);
      var drift := currentWeight - targetWeight;
      if Abs(drift) <= config.rebalanceThreshold {
        continue;
      }
      var deltaValue := DeltaValue(targetWeight, totalNav, pos.marketValue);
      if pos.lastPrice == 0.0 {
        continue;
      }
      if deltaValue > 0.0 {
        var maxBuyShares := BuyQuantity(deltaValue, availableCash, pos.lastPrice);
        if maxBuyShares <= 0 {
          continue;
        }
        suggestions := suggestions + [Proposal(pos, BuyAction, currentWeight, targetWeight, maxBuyShares)];
      } else {
        var maxSell := SellQuantity(deltaValue, pos.lastPrice, pos.quantity);
        if maxSell <= 0 {
          continue;
        }
        suggestions := suggestions + [Proposal(pos, SellAction, currentWeight, targetWeight, maxSell)];
      }
    }
    assert positions[..|positions|] == positions;
  }

  /**
   * The positions a suggestion is made for: exactly those with a target whose
   * drift exceeds the threshold, whose price is non-zero, and whose rounded
   * share count (buy or sell, by the sign of the value gap) is positive.
   */
  lemma SuggestionSkips(pos: PositionRow, totalNav: real, availableCash: real, config: PortfolioConfig)
    requires totalNav != 0.0
    ensures SuggestionFor(pos, totalNav, availableCash, config).Some? <==>
      && pos.symbol in config.targetAllocations
      && Abs(Weight(pos.marketValue, totalNav) - config.targetAllocations[pos.symbol]) > config.rebalanceThreshold
      && pos.lastPrice != 0.0
      && var deltaValue := DeltaValue(config.targetAllocations[pos.symbol], totalNav, pos.marketValue);
         if deltaValue > 0.0 then BuyQuantity(deltaValue, availableCash, pos.lastPrice) >= 1
         else SellQuantity(deltaValue, pos.lastPrice, pos.quantity) >= 1
  {
  }

  /**
   * The buy quantity at a positive price is the largest whole number of shares
   * whose cost fits both the value gap and the cash.
   */
  lemma BuyQuantityIsTight(deltaValue: real, availableCash: real, price: real)
    requires price > 0.0 && deltaValue > 0.0
    requires BuyQuantity(deltaValue, availableCash, price) >= 1
    ensures
      var q := BuyQuantity(deltaValue, availableCash, price);
      && q as real * price <= availableCash
      && q as real * price <= deltaValue
      && (q + 1) as real * price > Min(deltaValue, availableCash)
  {
    var m := Min(deltaValue, availableCash);
    var q := BuyQuantity(deltaValue, availableCash, price);
    assert m / price >= 0.0;
    assert q as real <= m / price < q as real + 1.0;
    MulLeDiv(q as real, m, price);
    MulGtDiv(q as real + 1.0, m, price);
  }

  lemma MulLeDiv(q: real, m: real, p: real)
    requires p > 0.0 && q <= m / p
    ensures q * p <= m
  {
    assert q * p <= (m / p) * p;
  }

  lemma MulGtDiv(q: real, m: real, p: real)
    requires p > 0.0 && q > m / p
    ensures q * p > m
  {
    assert q * p > (m / p) * p;
  }

  /** A positive sell quantity never exceeds the shares held. */
  lemma SellQuantityBounded(deltaValue: real, price: real, quantity: real)
    requires price != 0.0
    requires SellQuantity(deltaValue, price, quantity) >= 1
    ensures
      var q := SellQuantity(deltaValue, price, quantity);
      && q <= Trunc(quantity) && q as real <= quantity
      && q <= Ceil(Abs(deltaValue / price))
  {
  }

  /**
   * A suggestion is a BUY exactly when the position is under its target value;
   * its quantity is positive, sized by `BuyQuantity` or `SellQuantity`, and its
   * value is quantity times price.
   */
  lemma SuggestionSizing(pos: PositionRow, totalNav: real, availableCash: real, config: PortfolioConfig)
    requires totalNav != 0.0
    requires SuggestionFor(pos, totalNav, availableCash, config).Some?
    ensures
      var s := SuggestionFor(pos, totalNav, availableCash, config).value;
      var deltaValue := DeltaValue(config.targetAllocations[pos.symbol], totalNav, pos.marketValue);
      && s.symbol == pos.symbol && s.reason == "weight"
      && s.suggestedQuantity >= 1
      && s.suggestedValue == s.suggestedQuantity as real * pos.lastPrice
      && (s.action == BuyAction <==> deltaValue > 0.0)
      && (s.action == BuyAction ==> s.suggestedQuantity == BuyQuantity(deltaValue, availableCash, pos.lastPrice))
      && (s.action == SellAction ==> s.suggestedQuantity == SellQuantity(deltaValue, pos.lastPrice, pos.quantity))
  {
  }

  /** Suggesting for a concatenation is suggesting for each part. */
  lemma {:induction false} SuggestionsAppend(a: seq<PositionRow>, b: seq<PositionRow>, totalNav: real, availableCash: real, config: PortfolioConfig)
    ensures Suggestions(a + b, totalNav, availableCash, config) ==
      Suggestions(a, totalNav, availableCash, config) + Suggestions(b, totalNav, availableCash, config)
    decreases |b|
  {
    if b == [] {
      assert a + b == a;
    } else if totalNav != 0.0 {
      assert (a + b)[..|a + b| - 1] == a + b[..|b| - 1];
      SuggestionsAppend(a, b[..|b| - 1], totalNav, availableCash, config);
    }
  }

  /** Every suggestion made is the suggestion for one of the positions. */
  lemma {:induction false} SuggestionsComeFromPositions(positions: seq<PositionRow>, totalNav: real, availableCash: real, config: PortfolioConfig)
    ensures forall s :: s in Suggestions(positions, totalNav, availableCash, config) ==>
      exists i :: 0 <= i < |positions| && SuggestionFor(positions[i], totalNav, availableCash, config) == Some(s)
  {
    if totalNav != 0.0 && positions != [] {
      var p := positions[..|positions| - 1];
      SuggestionsComeFromPositions(p, totalNav, availableCash, config);
      forall s | s in Suggestions(positions, totalNav, availableCash, config)
        ensures exists i :: 0 <= i < |positions| && SuggestionFor(positions[i], totalNav, availableCash, config) == Some(s)
      {
        if s in Suggestions(p, totalNav, availableCash, config) {
          var i :| 0 <= i < |p| && SuggestionFor(p[i], totalNav, availableCash, config) == Some(s);
          assert positions[i] == p[i];
        } else {
          assert SuggestionFor(positions[|positions| - 1], totalNav, availableCash, config) == Some(s);
        }
      }
    }
  }

  /** Every position that has a suggestion contributes it to the result. */
  lemma {:induction false} SuggestionsComplete(positions: seq<PositionRow>, totalNav: real, availableCash: real, config: PortfolioConfig)
    requires totalNav != 0.0
    ensures forall i :: 0 <= i < |positions| && SuggestionFor(positions[i], totalNav, availableCash, config).Some? ==>
      SuggestionFor(positions[i], totalNav, availableCash, config).value in Suggestions(positions, totalNav, availableCash, config)
  {
    if positions != [] {
      var p := positions[..|positions| - 1];
      SuggestionsComplete(p, totalNav, availableCash, config);
      forall i | 0 <= i < |p| ensures positions[i] == p[i] {
      }
    }
  }

  /** The cash-capped buy: a 40000 gap with 500 in cash at a price of 200 buys 2 shares. */
  lemma BuyCappedByCashExample()
    ensures
      var pos := PositionRow("AAPL.US", "Apple", 50.0, 150.0, 200.0, 200.0, 10000.0, 7500.0, 2500.0, 33.0, 0.0, 0.1, "USD");
      var config := PortfolioConfig("USD", map["AAPL.US" := 0.5], 0.05, 14, 2.0);
      var s := SuggestionFor(pos, 100000.0, 500.0, config);
      s.Some? && s.value.action == BuyAction && s.value.suggestedQuantity == 2 && s.value.suggestedValue == 400.0
  {
    assert BuyQuantity(40000.0, 500.0, 200.0) == 2 by {
      assert Min(Abs(40000.0), 500.0) / 200.0 == 2.5;
    }
  }

  // =====================================================================
  // ATR bands
  // =====================================================================

  /** The band signal: the first of the five tests, in source order, that matches. */
  function Classify(price: real, lowerBand: real, upperBand: real, atr: real): Signal {
    var half := 0.5 * atr;
    if price > upperBand then BreachUpper
    else if price > upperBand - half then NearUpper
    else if price < lowerBand then BreachLower
    else if price < lowerBand + half then NearLower
    else InRange
  }

  /** The signals ordered from the lowest price zone to the highest. */
  function SignalRank(s: Signal): int {
    match s
    case BreachLower => 0
    case NearLower => 1
    case InRange => 2
    case NearUpper => 3
    case BreachUpper => 4
  }

  /** A higher price never gives a lower zone. */
  lemma ClassifyMonotone(p1: real, p2: real, lowerBand: real, upperBand: real, atr: real)
    requires p1 <= p2
    ensures SignalRank(Classify(p1, lowerBand, upperBand, atr)) <= SignalRank(Classify(p2, lowerBand, upperBand, atr))
  {
  }

  /** For a non-negative ATR the price is in range exactly between the two near zones. */
  lemma ClassifyInRange(price: real, lowerBand: real, upperBand: real, atr: real)
    requires atr >= 0.0
    ensures Classify(price, lowerBand, upperBand, atr) == InRange <==>
      lowerBand + 0.5 * atr <= price <= upperBand - 0.5 * atr
    ensures Classify(price, lowerBand, upperBand, atr) == BreachUpper <==> price > upperBand
  {
  }

  /** The band for one position, or nothing without candles or an ATR. */
  function BandFor(pos: PositionRow, candles: map<string, seq<Candle>>, config: PortfolioConfig): Option<AtrBand> {
    if pos.symbol !in candles || candles[pos.symbol] == [] then None
    else match Atr(candles[pos.symbol], config.atrPeriod)
      case None => None
      case Some(atr) => Some(BandAround(pos, atr, config.atrMultiplier))
  }

  /** Bands `cost -/+ multiplier * atr` and the signal of the last price against them. */
  function BandAround(pos: PositionRow, atr: real, multiplier: real): (b: AtrBand)
    ensures (b.lowerBand + b.upperBand) / 2.0 == pos.costPrice
    ensures b.upperBand - b.lowerBand == 2.0 * multiplier * atr
  {
    var lower := pos.costPrice - multiplier * atr;
    var upper := pos.costPrice + multiplier * atr;
    AtrBand(pos.symbol, pos.name, pos.lastPrice, pos.costPrice, atr, lower, upper, Classify(pos.lastPrice, lower, upper, atr))
  }

  /** The bands for the positions, in input order. */
  function Bands(positions: seq<PositionRow>, candles: map<string, seq<Candle>>, config: PortfolioConfig): (r: seq<AtrBand>)
    ensures |r| <= |positions|
  {
    if positions == [] then []
    else
      Bands(positions[..|positions| - 1], candles, config)
        + (match BandFor(positions[|positions| - 1], candles, config) case Some(b) => [b] case None => [])
  }

  /** Extending the positions by one adds that position's band, if any. */
  lemma BandsStep(positions: seq<PositionRow>, i: int, candles: map<string, seq<Candle>>, config: PortfolioConfig)
    requires 0 <= i < |positions|
    ensures Bands(positions[..i + 1], candles, config) ==
      Bands(positions[..i], candles, config) + match BandFor(positions[i], candles, config) case Some(b) => [b] case None => []
  {
    assert positions[..i + 1][..i] == positions[..i];
  }

  /** atr_based_rebalance. */
  method AtrBasedRebalance(positions: seq<PositionRow>, candles: map<string, seq<Candle>>, config: PortfolioConfig)
    returns (bands: seq<AtrBand>)
    ensures bands == Bands(positions, candles, config)
  {
    bands := [];
    for i := 0 to |positions|
      invariant bands == Bands(positions[..i], candles, config)
    {
      BandsStep(positions, i, candles, config);
      var pos := positions[i];
      if pos.symbol !in candles || candles[pos.symbol] == [] {
        continue;
      }
      var atr := CalculateAtr(candles[pos.symbol], config.atrPeriod);
      if atr.None? {
        continue;
      }
      bands := bands + [BandAround(pos, atr.value, config.atrMultiplier)];
    }
    assert positions[..|positions|] == positions;
  }

  /**
   * A band is made exactly for a position with candles and an ATR; it is centred
   * on the cost price, `multiplier * atr` wide on each side.
   */
  lemma BandShape(pos: PositionRow, candles: map<string, seq<Candle>>, config: PortfolioConfig)
    ensures BandFor(pos, candles, config).Some? <==>
      pos.symbol in candles && candles[pos.symbol] != [] && Atr(candles[pos.symbol], config.atrPeriod).Some?
    ensures BandFor(pos, candles, config).Some? ==>
      var b := BandFor(pos, candles, config).value;
      && b.symbol == pos.symbol && b.currentPrice == pos.lastPrice
      && b.atr == Atr(candles[pos.symbol], config.atrPeriod).value
      && b == BandAround(pos, b.atr, config.atrMultiplier)
      && b.signal == Classify(pos.lastPrice, b.lowerBand, b.upperBand, b.atr)
  {
  }

  /** Bands over a concatenation are the bands of each part. */
  lemma {:induction false} BandsAppend(a: seq<PositionRow>, b: seq<PositionRow>, candles: map<string, seq<Candle>>, config: PortfolioConfig)
    ensures Bands(a + b, candles, config) == Bands(a, candles, config) + Bands(b, candles, config)
    decreases |b|
  {
    if b == [] {
      assert a + b == a;
    } else {
      assert (a + b)[..|a + b| - 1] == a + b[..|b| - 1];
      BandsAppend(a, b[..|b| - 1], candles, config);
    }
  }
}
