/**
 * The value objects of the portfolio core. Money, quantities and returns are
 * exact decimals, modelled as `real`; dates are day ordinals (see Calendar).
 */
module Types {
  import opened Wrappers

  /** The kinds of ledger event. `Other` stands for any event type string outside the table. */
  datatype EventKind = CashIn | CashOut | Dividend | Buy | Sell | Other(name: string)

  /**
   * One ledger entry. For trades `quantity` is shares and `price` the execution
   * price; for cash events `quantity` is the absolute amount and `price` is zero.
   */
  datatype LedgerEvent = LedgerEvent(
    date: int,
    kind: EventKind,
    symbol: Option<string>,
    quantity: real,
    price: real,
    orderId: Option<string>)

  /** Holdings (symbol to signed share quantity) and cash as of `date`. */
  datatype PortfolioState = PortfolioState(date: int, positions: map<string, real>, cash: real)

  datatype NavSnapshot = NavSnapshot(date: int, totalNav: real, stockValue: real, cashValue: real)

  /** Lifetime aggregate of a symbol whose bought and sold quantities are equal. */
  datatype ClosedPosition = ClosedPosition(
    symbol: string,
    totalBoughtQty: real,
    avgBuyPrice: real,
    avgSellPrice: real,
    realizedPnl: real,
    realizedPnlPct: real,
    firstTradeDate: int,
    lastTradeDate: int)

  /** A current holding with its pricing, as the brokerage reports it. */
  datatype PositionRow = PositionRow(
    symbol: string,
    name: string,
    quantity: real,
    costPrice: real,
    lastPrice: real,
    prevClose: real,
    marketValue: real,
    costValue: real,
    unrealizedPnl: real,
    unrealizedPnlPct: real,
    dailyPnl: real,
    weight: real,
    currency: string)

  datatype PortfolioConfig = PortfolioConfig(
    baseCurrency: string,
    targetAllocations: map<string, real>,
    rebalanceThreshold: real,
    atrPeriod: int,
    atrMultiplier: real)

  datatype TradeAction = BuyAction | SellAction

  /** A weight-based trade proposal (its human-readable `detail` text is not modelled). */
  datatype RebalanceSuggestion = RebalanceSuggestion(
    symbol: string,
    name: string,
    action: TradeAction,
    reason: string,
    currentWeight: real,
    targetWeight: real,
    currentPrice: real,
    suggestedQuantity: int,
    suggestedValue: real)

  /** The band signals, listed from the lowest price zone to the highest. */
  datatype Signal = BreachLower | NearLower | InRange | NearUpper | BreachUpper

  datatype AtrBand = AtrBand(
    symbol: string,
    name: string,
    currentPrice: real,
    costPrice: real,
    atr: real,
    lowerBand: real,
    upperBand: real,
    signal: Signal)

  datatype StockPerformance = StockPerformance(
    symbol: string,
    name: string,
    wow: Option<real>,
    mtd: Option<real>,
    qtd: Option<real>,
    ytd: Option<real>,
    prevYear: Option<real>,
    totalReturn: real)

  datatype PortfolioPerformance = PortfolioPerformance(
    asOfDate: int,
    nav: real,
    dailyPnl: real,
    dailyPnlPct: real,
    wow: Option<real>,
    mtd: Option<real>,
    qtd: Option<real>,
    ytd: Option<real>,
    prevYear: Option<real>,
    inception: Option<real>,
    inceptionDate: int,
    stockPerformance: seq<StockPerformance>,
    wowPnl: Option<real>,
    mtdPnl: Option<real>,
    qtdPnl: Option<real>,
    ytdPnl: Option<real>,
    prevYearPnl: Option<real>,
    inceptionPnl: Option<real>,
    inceptionRoi: Option<real>)
}
