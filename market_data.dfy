/**
 * The in-memory part of the market-data layer: the closing-price cache with its
 * short look-back, and the symbol translation used when querying the price feed.
 */
module MarketData {
  import opened Wrappers

  // ---------------------------------------------------------------------
  // Symbol translation
  // ---------------------------------------------------------------------

  /** Index of the last occurrence of `c` in `s`, or -1 when there is none. */
  function LastIndexOf(s: string, c: char): (i: int)
    ensures -1 <= i < |s|
    ensures i >= 0 ==> s[i] == c
    ensures forall j :: i < j < |s| ==> s[j] != c
  {
    if s == [] then -1
    else if s[|s| - 1] == c then |s| - 1
    else LastIndexOf(s[..|s| - 1], c)
  }

  /**
   * `_to_yahoo_symbol`: everything before the last '.', or the whole symbol when
   * it has no '.' ("AAPL.US" becomes "AAPL").
   */
  function YahooSymbol(symbol: string): (r: string)
    ensures (forall j :: 0 <= j < |symbol| ==> symbol[j] != '.') ==> r == symbol
    ensures (exists j :: 0 <= j < |symbol| && symbol[j] == '.') ==>
      && |r| < |symbol| && r == symbol[..|r|] && symbol[|r|] == '.'
      && forall j :: |r| < j < |symbol| ==> symbol[j] != '.'
  {
    var i := LastIndexOf(symbol, '.');
    if i < 0 then symbol else symbol[..i]
  }

  /** Appending a dot-free market suffix and translating gives back the base symbol. */
  lemma YahooSymbolDropsSuffix(base: string, suffix: string)
    requires forall j :: 0 <= j < |suffix| ==> suffix[j] != '.'
    ensures YahooSymbol(base + "." + suffix) == base
  {
    var s := base + "." + suffix;
    assert s[|base|] == '.';
    var r := YahooSymbol(s);
    assert forall j :: |base| < j < |s| ==> s[j] == suffix[j - |base| - 1];
    assert |r| == |base|;
    assert s[..|base|] == base;
  }

  lemma YahooSymbolExamples()
    ensures YahooSymbol("AAPL.US") == "AAPL"
    ensures YahooSymbol("BRK.B.US") == "BRK.B"
    ensures YahooSymbol("AAPL") == "AAPL"
  {
    YahooSymbolDropsSuffix("AAPL", "US");
    assert "AAPL" + "." + "US" == "AAPL.US";
    YahooSymbolDropsSuffix("BRK.B", "US");
    assert "BRK.B" + "." + "US" == "BRK.B.US";
  }

  // ---------------------------------------------------------------------
  // Price cache
  // ---------------------------------------------------------------------

  /** The days get_close looks at: the target itself and up to this many days before it. */
  const LookBackDays := 5

  /**
   * The price on the nearest of `target - offset`, `target - offset - 1`, ...,
   * `target - LookBackDays` that has one.
   */
  function Nearest(datePrices: map<int, real>, target: int, offset: nat): Option<real>
    decreases LookBackDays + 1 - offset
  {
    if offset > LookBackDays then None
    else if target - offset in datePrices then Some(datePrices[target - offset])
    else Nearest(datePrices, target, offset + 1)
  }

  /**
   * The look-back search returns the price of the latest priced day within the
   * window `[target - 5, target - offset]`, never one after the target, and nothing
   * when the window has no price.
   */
  lemma {:induction false} NearestIsLatestInWindow(datePrices: map<int, real>, target: int, offset: nat)
    requires offset <= LookBackDays + 1
    ensures Nearest(datePrices, target, offset).None? <==>
      forall d :: target - LookBackDays <= d <= target - offset ==> d !in datePrices
    ensures Nearest(datePrices, target, offset).Some? ==>
      exists d :: target - LookBackDays <= d <= target - offset && d in datePrices &&
        Nearest(datePrices, target, offset).value == datePrices[d] &&
        forall d' :: d < d' <= target - offset ==> d' !in datePrices
    decreases LookBackDays + 1 - offset
  {
    if offset <= LookBackDays {
      if target - offset in datePrices {
        assert target - offset in datePrices;
      } else {
        NearestIsLatestInWindow(datePrices, target, offset + 1);
        var r := Nearest(datePrices, target, offset + 1);
        if r.Some? {
          var d :| target - LookBackDays <= d <= target - offset - 1 && d in datePrices &&
            r.value == datePrices[d] && forall d' :: d < d' <= target - offset - 1 ==> d' !in datePrices;
          assert forall d' :: d < d' <= target - offset ==> d' !in datePrices;
        }
      }
    }
  }

  /** `PriceCache`: per-symbol closing prices keyed by day, supplied directly. */
  class PriceCache {
    var prices: map<string, map<int, real>>

    constructor (prices: map<string, map<int, real>>)
      ensures this.prices == prices
    {
      this.prices := prices;
    }

    /** The value get_close returns: nothing for an unknown symbol, else the look-back search. */
    function Close(symbol: string, target: int): Option<real>
      reads this
    {
      if symbol !in prices then None else Nearest(prices[symbol], target, 0)
    }

    /**
     * The cache as a price-source value: a snapshot of its price map that answers
     * every (symbol, day) query as get_close does.
     */
    function Source(): (src: (string, int) -> Option<real>)
      reads this
      ensures forall symbol, target :: src(symbol, target) == Close(symbol, target)
    {
      var p := prices;
      (symbol: string, target: int) => if symbol !in p then None else Nearest(p[symbol], target, 0)
    }

    /** get_close: the exact day first, then up to five days back, closest first. */
    method GetClose(symbol: string, target: int) returns (price: Option<real>)
      ensures price == Close(symbol, target)
      ensures symbol !in prices ==> price.None?
      ensures symbol in prices && target in prices[symbol] ==> price == Some(prices[symbol][target])
    {
      if symbol !in prices {
        return None;
      }
      var datePrices := prices[symbol];
      if target in datePrices {
        return Some(datePrices[target]);
      }
      var offset := 1;
      while offset < LookBackDays + 1
        invariant 1 <= offset <= LookBackDays + 1
        invariant Nearest(datePrices, target, 0) == Nearest(datePrices, target, offset)
      {
        if target - offset in datePrices {
          return Some(datePrices[target - offset]);
        }
        offset := offset + 1;
      }
      return None;
    }

    /** get_closes: the symbols with a price, each with the value get_close returns for it. */
    method GetCloses(symbols: seq<string>, target: int) returns (result: map<string, real>)
      ensures forall s :: s in result <==> s in symbols && Close(s, target).Some?
      ensures forall s :: s in result ==> result[s] == Close(s, target).value
    {
      result := map[];
      for i := 0 to |symbols|
        invariant forall s :: s in result <==> s in symbols[..i] && Close(s, target).Some?
        invariant forall s :: s in result ==> result[s] == Close(s, target).value
      {
        assert symbols[..i + 1] == symbols[..i] + [symbols[i]];
        var p := GetClose(symbols[i], target);
        if p.Some? {
          result := result[symbols[i] := p.value];
        }
      }
      assert symbols[..|symbols|] == symbols;
    }
  }

  /** A missing weekend is bridged: with prices on Friday only, Sunday reads Friday's close. */
  lemma WeekendFallbackExample()
    ensures Nearest(map[100 := 150.0], 102, 0) == Some(150.0)
    ensures Nearest(map[100 := 150.0], 106, 0) == None
  {
  }
}
