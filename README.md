# Portfolio analytics core, modelled in Dafny

This project models the analytics core of a portfolio manager for a brokerage
account, and proves properties of that model:

- **the event ledger** (`ledger.dfy`). Trade rows and cash-flow rows are merged
  into one timeline, sorted by date and, within a date, with cash events before
  trades. Replaying a prefix of that timeline gives the holdings and the cash on
  a date, and the model also covers:
  - valuing a portfolio state at a set of prices;
  - picking out the external cash flows in a window;
  - aggregating fully closed positions;
  - comparing replayed holdings with the broker's holdings.
- **performance** (`performance.dfy`). It covers:
  - resolving the period anchors (week, month, quarter and year to date, the
    previous year, inception) to trading days;
  - the time-weighted return (TWR), split at external cash-flow dates;
  - per-stock price returns;
  - dollar P&L derived from TWR;
  - the ROI on net deposits;
  - the orchestrator that assembles the whole performance report.
- **rebalancing** (`rebalancing.dfy`). It covers:
  - the Average True Range (ATR) over OHLC candles;
  - weight-drift rebalancing with whole-share sizing capped by cash and by
    holdings;
  - ATR volatility bands with their five-way signal.
- **the price cache** (`market_data.dfy`). It covers:
  - the close-price lookup, which falls back up to five calendar days;
  - the batch lookup;
  - the translation of a broker symbol (`AAPL.US`) to a Yahoo ticker (`AAPL`).

The project also has these supporting modules:

- `calendar.dfy` computes proleptic Gregorian day ordinals, as `date.toordinal`
  does.
- `sorting.dfy` holds:
  - Python's stable `list.sort(key=...)`, as an insertion sort proved sorted,
    a permutation and stable;
  - `sorted()` over strings and over a set of dates;
  - Python's string ordering.
- `types.dfy` holds the records.
- `wrappers.dfy` holds `Option`.

The model represents the Python program as follows:

- **Decimal:** every `Decimal` becomes a `real`, which is exact.
- **Dates:** every date becomes its day ordinal (an `int`), so
  `d - timedelta(days=k)` becomes `d - k`.
- **Conversions:** Python's `int()`, which truncates towards zero, and
  `math.ceil` are written out as `Rebalancing.Trunc` and `Rebalancing.Ceil`.
- **Prices:** the performance code obtains every price through an abstract
  `PriceSource`, a function from a symbol and a day to an optional close.
  `MarketData.PriceCache.Source` turns a cache into such a source, one that
  answers every query as `MarketData.PriceCache.Close` does.
- **Today:** today's date and the live NAV and daily P&L are parameters of
  `Performance.CalculatePortfolioPerformance`.
- **Form:**
  - Loops that build a result step by step are methods with invariants. Each is
    proved equal to a specification function, and the lemmas are stated about
    that function.
  - The price cache is a class whose field is the per-symbol price map.

Where the code and its documentation disagree, the model follows the code:

- `calculate_twr`'s docstring says it returns None when NAV is zero. The code
  skips a sub-period whose start and end NAV are both zero. It returns None only
  when the start NAV is zero and the end NAV is not.
- `resolve_anchor_dates` compares the *raw* anchor date with the inception date.
  It does not compare the snapped trading day. A snapped anchor may therefore
  fall before inception (`Performance.SnapMayPrecedeInception`).
- `replay_to_date` deletes a symbol only after a sale that brings it to zero. A
  buy that covers a short position leaves a zero entry behind. The model proves
  that no zero entry remains only for long-only ledgers
  (`Ledger.LongOnlyReplayIsZeroFree`).
- `_calculate_atr` does not validate `atr_period`. The model follows pandas
  `tail(n)` for every `n`, including negative `n`, which keeps all rows but the
  first `|n|`.

## Model

| member | source | states |
|---|---|---|
| Ledger.Rank | src/portfolio_manager/analytics/ledger.py:21-27 | the type rank is between 0 and 99, and it is at most 2 exactly for the three cash kinds (cash_in, cash_out, dividend); unknown types rank 99 |
| Ledger.EventKey | src/portfolio_manager/analytics/ledger.py:98 | the key divided by 100 is the event date and its remainder is the type rank, so it encodes the pair (date, rank) used by the sort |
| Ledger.EventKeyIsLexicographic | src/portfolio_manager/analytics/ledger.py:98 | the single integer sort key orders two events exactly as the tuple (date, type rank) does |
| Ledger.SortedByKeyIsOrdered | src/portfolio_manager/analytics/ledger.py:97-98 | a ledger sorted by that key is ascending by date and, within a date, by type rank |
| Ledger.CashPrecedesTradesOnADate | src/portfolio_manager/analytics/ledger.py:20-27 | in an ordered ledger every cash event of a date comes before every trade of the same date |
| Ledger.Lower | src/portfolio_manager/analytics/ledger.py:52 | lower-casing keeps the length and lowers each character |
| Ledger.DividendHeuristicIsDiv | src/portfolio_manager/analytics/ledger.py:82-83 | the test "`dividend` or `div` occurs in the lowered description" holds exactly when `div` occurs in it |
| Ledger.TradeEvent | src/portfolio_manager/analytics/ledger.py:51-63 | the trade mapping; its meaning is stated by TradeRowMapping |
| Ledger.CashEvent | src/portfolio_manager/analytics/ledger.py:68-95 | the cash mapping; its meaning is stated by CashRowMapping |
| Ledger.TradeRowMapping | src/portfolio_manager/analytics/ledger.py:51-63 | a trade row becomes a buy exactly when its lowered side is `buy` and a sell otherwise; date, symbol, quantity and price are carried over, and the order id is kept |
| Ledger.CashRowMapping | src/portfolio_manager/analytics/ledger.py:68-95 | a cash row is dropped exactly when its business type is 2; otherwise it becomes an event with no symbol, price 0 and the absolute amount, a dividend exactly for an inflow whose lowered description has `div`, cash_in for any other inflow, and cash_out for every other direction |
| Ledger.TradeEvents | src/portfolio_manager/analytics/ledger.py:51-63 | one event per trade row, in row order |
| Ledger.CashEvents | src/portfolio_manager/analytics/ledger.py:68-95 | one event for each cash row that is not a stock settlement (business type 2) and nothing else: every event is some row's event, every kept row's event is in the result, and the count is the number of kept rows |
| Ledger.KeptRows | src/portfolio_manager/analytics/ledger.py:68-74 | the number of cash rows that are not stock settlements (no contract of its own; CashEvents and BuildLedger relate it to the events) |
| Ledger.CashEventsPrefixStep | src/portfolio_manager/analytics/ledger.py:68-95 | one more cash row adds its own event, if it has one, at the end |
| Ledger.CashEventsAppend | src/portfolio_manager/analytics/ledger.py:68-95 | cash rows convert independently and in order: the events of `a + b` are those of `a` followed by those of `b` |
| Ledger.RawEventsHaveSymbols | src/portfolio_manager/analytics/ledger.py:48-95 | every buy or sell in the merged list carries a symbol |
| Ledger.RawEventsContainRows | src/portfolio_manager/analytics/ledger.py:48-95 | the merged list holds every trade row's event and every kept cash row's event, and has one event per trade row and per kept cash row |
| Ledger.SortedRawEvents | src/portfolio_manager/analytics/ledger.py:97-98 | any stable sort of the merged list keeps those events and that length, and every buy or sell in it names a symbol |
| Ledger.BuildLedger | src/portfolio_manager/analytics/ledger.py:30-100 | the result is a stable sort by (date, type rank) of the trade events followed by the cash events: sorted, a permutation, and equal-key events in input order; it is ordered, its trades have symbols, it holds every trade row's event and every kept cash row's event, and its length is the number of trade rows plus kept cash rows |
| Ledger.AppliedCount | src/portfolio_manager/analytics/ledger.py:122-124 | replay consumes a prefix of events dated on or before the target and stops at the first later one |
| Ledger.Replay | src/portfolio_manager/analytics/ledger.py:103-148 | the loop's state equals the fold of the per-event update over the consumed prefix, starting from no positions and the initial cash |
| Ledger.ApplyEvent | src/portfolio_manager/analytics/ledger.py:126-146 | one step of the replay loop equals the per-event update (buy, sell with zero removal, cash in, cash out, dividend, anything else ignored) |
| Ledger.ReplayCash | src/portfolio_manager/analytics/ledger.py:112-146 | replayed cash = initial cash − buy notional + sell notional + deposits + dividends − withdrawals |
| Ledger.ReplayPositions | src/portfolio_manager/analytics/ledger.py:126-137 | every symbol's replayed quantity (0 when absent) is its initial quantity plus bought minus sold quantity |
| Ledger.ReplayedSymbolsAreTraded | src/portfolio_manager/analytics/ledger.py:126-137 | a symbol held after replay was held at the start or was traded |
| Ledger.ApplyAllAppend | src/portfolio_manager/analytics/ledger.py:122-146 | replaying `a + b` is replaying `b` from the state after `a` |
| Ledger.LongOnlyReplayIsZeroFree | src/portfolio_manager/analytics/ledger.py:135-137 | a ledger that never sells more than it holds, with positive buys, leaves no zero position |
| Ledger.FullSellRemovesSymbol | src/portfolio_manager/analytics/ledger.py:131-137 | selling exactly the held quantity deletes the symbol, leaves the other positions and credits the proceeds |
| Ledger.BuyThenSellRoundTrip | src/portfolio_manager/analytics/ledger.py:126-137 | buying and then selling the same quantity of a symbol not held restores the positions and changes cash by quantity × (sell price − buy price) |
| Ledger.OrderedAppliedCount | src/portfolio_manager/analytics/ledger.py:122-124 | on an ordered ledger an event is applied exactly when its date is on or before the target |
| Ledger.AppliedCountMonotone | src/portfolio_manager/analytics/ledger.py:122-124 | a later target consumes at least as many events |
| Ledger.ReplayStopsAtFirstLaterEvent | src/portfolio_manager/analytics/ledger.py:123-124 | events after the first later-dated one never affect the replay |
| Ledger.Apply | src/portfolio_manager/analytics/ledger.py:126-146 | the per-event update; its meaning is stated by ApplyEvent, FullSellRemovesSymbol and BuyThenSellRoundTrip |
| Ledger.ApplyAll | src/portfolio_manager/analytics/ledger.py:122-146 | the fold of Apply over a ledger; its meaning is stated by ReplayCash, ReplayPositions and ApplyAllAppend |
| Ledger.ReplayExample | src/portfolio_manager/analytics/ledger.py:103-148 | deposit 20000, buy 100 at 180, sell 50 at 190 replays to 50 shares and 11500 cash |
| Ledger.ValueOfRemove | src/portfolio_manager/analytics/ledger.py:160-165 | the stock value over a set of symbols is one symbol's quantity × price (0 without a price) plus the value of the rest |
| Ledger.StockValueMissingPrice | src/portfolio_manager/analytics/ledger.py:162 | a position with no price contributes nothing |
| Ledger.ValueOfNonNegative | src/portfolio_manager/analytics/ledger.py:160-165 | with long-only positions and non-negative prices the stock value is non-negative |
| Ledger.NavAtDate | src/portfolio_manager/analytics/ledger.py:151-172 | the snapshot keeps the date and cash; its stock value is the sum of quantity × price; total NAV = stock + cash; the warned symbols are exactly the long positions whose price is missing or zero |
| Ledger.NavOfCashOnlyPortfolio | src/portfolio_manager/analytics/ledger.py:160-169 | without positions the stock value is 0 |
| Ledger.CashFlowEventsInPeriod | src/portfolio_manager/analytics/ledger.py:186-190 | the filter returns a subsequence no longer than the ledger |
| Ledger.CashFlowsExactly | src/portfolio_manager/analytics/ledger.py:186-190 | an event is returned exactly when it is in the ledger, is cash_in or cash_out (never a dividend) and is dated after the start and on or before the end |
| Ledger.CashFlowsAppend | src/portfolio_manager/analytics/ledger.py:186-190 | the filter distributes over concatenation, so the ledger order is kept |
| Ledger.CashFlowsIdempotent | src/portfolio_manager/analytics/ledger.py:186-190 | filtering twice equals filtering once |
| Ledger.CashFlowsNone | src/portfolio_manager/analytics/ledger.py:186-190 | when no event qualifies the result is empty |
| Ledger.CashFlowsEmptyWindow | src/portfolio_manager/analytics/ledger.py:186-190 | an empty window (end on or before start) has no flows |
| Ledger.AggregateWellFormed | src/portfolio_manager/analytics/ledger.py:206-234 | the first-seen order lists each aggregated symbol exactly once |
| Ledger.AggregateMembership | src/portfolio_manager/analytics/ledger.py:208-221 | a symbol is aggregated exactly when it has a buy or sell with that symbol |
| Ledger.AggregateSums | src/portfolio_manager/analytics/ledger.py:223-229 | a symbol's bought and sold quantities, cost and proceeds are the sums over its own trades |
| Ledger.AggregateDates | src/portfolio_manager/analytics/ledger.py:219-234 | a symbol's first and last trade dates are the earliest and latest dates of its trades |
| Ledger.Aggregate | src/portfolio_manager/analytics/ledger.py:206-234 | the aggregation loop as a fold; its meaning is stated by AggregateWellFormed, AggregateMembership, AggregateSums and AggregateDates |
| Ledger.AggregatePrefixStep | src/portfolio_manager/analytics/ledger.py:206-234 | one more ledger event extends the aggregation by one step |
| Ledger.ToClosed | src/portfolio_manager/analytics/ledger.py:246-266 | average buy × bought quantity = cost and average sell × sold quantity = proceeds (else 0); realised P&L = proceeds − cost; P&L % × average buy = (average sell − average buy) × 100, or 0 when the average buy is 0 |
| Ledger.CandidatesExactly | src/portfolio_manager/analytics/ledger.py:237-267 | a closed position is produced exactly for an aggregated symbol whose net quantity is 0 and that is not currently held |
| Ledger.Candidates | src/portfolio_manager/analytics/ledger.py:237-267 | the closed-position filter in first-seen order; its meaning is stated by CandidatesExactly |
| Ledger.CandidatesPrefixStep | src/portfolio_manager/analytics/ledger.py:237-267 | one more symbol of the order adds its closed position, if it is closed, at the end |
| Ledger.ClosedPnl | src/portfolio_manager/analytics/ledger.py:249-251 | for a round trip of equal quantities the realised P&L is quantity × (average sell − average buy) |
| Ledger.ClosedMeansFlat | src/portfolio_manager/analytics/ledger.py:240-243 | a symbol reported closed replays to a net quantity of 0 |
| Ledger.NetQuantityOfTrades | src/portfolio_manager/analytics/ledger.py:128-133 | the replayed net quantity of a symbol is its bought minus its sold quantity |
| Ledger.ClosedPositions | src/portfolio_manager/analytics/ledger.py:193-271 | the result is a stable sort, by last trade date descending, of the closed candidates in first-seen order |
| Ledger.ClosedPositionExample | src/portfolio_manager/analytics/ledger.py:193-271 | buy 100 at 150, sell 100 at 180 closes with P&L 3000 and 20 % |
| Ledger.MismatchesSound | src/portfolio_manager/analytics/ledger.py:285-295 | every warning names a listed symbol whose replayed and current quantities (0 when absent) differ, with both quantities |
| Ledger.MismatchesComplete | src/portfolio_manager/analytics/ledger.py:285-295 | every listed symbol whose quantities differ is warned about |
| Ledger.MismatchesOrdered | src/portfolio_manager/analytics/ledger.py:285 | over sorted symbols the warnings come in symbol order |
| Ledger.Mismatches | src/portfolio_manager/analytics/ledger.py:284-295 | the comparison loop; its meaning is stated by MismatchesSound, MismatchesComplete and MismatchesOrdered |
| Ledger.CheckPositionConsistency | src/portfolio_manager/analytics/ledger.py:274-298 | the warnings are exactly the differing symbols of either side, each reported correctly, in ascending symbol order |
| Sorting.StableSort | src/portfolio_manager/analytics/ledger.py:98 | stable sort by an integer key: sorted, a permutation, and the elements of each key in their input order |
| Sorting.StablySortedKeepsElements | src/portfolio_manager/analytics/ledger.py:98 | a stable sort has the input's length and exactly the input's elements |
| Sorting.SortStrings | src/portfolio_manager/analytics/ledger.py:285 | `sorted` over a set of strings: strictly increasing, with exactly the set's elements |
| Sorting.SortedSet | src/portfolio_manager/analytics/performance.py:156-161 | `sorted(set(...))` over dates: strictly increasing, with exactly the set's elements |
| Calendar.LastDayOfPreviousMonth | src/portfolio_manager/analytics/performance.py:93-99 | the day before the first of a month is a valid date, the last day of the previous month (December of the previous year for January) |
| Calendar.DayBeforeFirstOfMonth | src/portfolio_manager/analytics/performance.py:93-99 | its ordinal is one less than the first of the month's |
| Calendar.NewYearFollowsDecember31 | src/portfolio_manager/analytics/performance.py:102-106 | 31 December is the day before 1 January of the following year |
| Calendar.OrdinalOfNextDay | src/portfolio_manager/analytics/performance.py:90 | consecutive calendar days have consecutive ordinals, so subtracting a timedelta of days is subtracting from the ordinal |
| Performance.LastAtMost | src/portfolio_manager/analytics/performance.py:83-86 | nothing exactly when every trading day is after the target; otherwise the last listed trading day on or before it, after which no listed day qualifies |
| Performance.Snap | src/portfolio_manager/analytics/performance.py:78-86 | nothing exactly when the raw target precedes inception or no trading day is on or before it; otherwise a trading day on or before the target |
| Performance.SnapIsGreatest | src/portfolio_manager/analytics/performance.py:78-86 | on ascending trading days the snapped day is the latest one on or before the target |
| Performance.SnapMayPrecedeInception | src/portfolio_manager/analytics/performance.py:80-86 | the inception check is on the raw date, so a snapped anchor can precede inception |
| Performance.QuarterStart | src/portfolio_manager/analytics/performance.py:97 | the first month of the quarter is 1, 4, 7 or 10 and within two months before the month |
| Performance.MonthAnchor | src/portfolio_manager/analytics/performance.py:93-94 | the MTD raw anchor is the last day of the previous month, before the as-of date |
| Performance.QuarterAnchor | src/portfolio_manager/analytics/performance.py:96-99 | the QTD raw anchor is the last day before the quarter's first month, before the as-of date |
| Performance.YearEnd | src/portfolio_manager/analytics/performance.py:102-106 | the year-end anchor of year `y` is the day before 1 January of `y` |
| Performance.ResolveAnchors | src/portfolio_manager/analytics/performance.py:66-116 | each period anchor is its raw date snapped: 7 days back, month, quarter, previous year end (YTD and previous-year end), year before that (previous-year start); inception passes through |
| Performance.YearEndsPrecedeAsOf | src/portfolio_manager/analytics/performance.py:101-106 | the two year-end anchors are a year apart and both precede the as-of date |
| Performance.AnchorsPrecedeAsOf | src/portfolio_manager/analytics/performance.py:88-114 | every resolved period anchor lies strictly before the as-of date |
| Performance.AnchorExample | src/portfolio_manager/analytics/performance.py:66-116 | a worked example for 13 January 2025 over a sparse trading calendar |
| Performance.PricesAt | src/portfolio_manager/analytics/performance.py:171-185 | the price map holds exactly the held symbols that have a price on the day, each with that day's price |
| Performance.FlowOnOtherDate | src/portfolio_manager/analytics/performance.py:195-202 | nothing is subtracted at a boundary that is not a cash-flow date |
| Performance.Boundaries | src/portfolio_manager/analytics/performance.py:153-161 | the boundaries are strictly increasing and are exactly the start, the end and the cash-flow dates |
| Performance.GrowthFactorScales | src/portfolio_manager/analytics/performance.py:210-211 | 1 + R_i times the start NAV is the adjusted end NAV |
| Performance.StepOf | src/portfolio_manager/analytics/performance.py:204-211 | a sub-period is skipped exactly when both NAVs are 0, makes the return undefined exactly when only the start NAV is 0, and grows otherwise |
| Performance.Advance | src/portfolio_manager/analytics/performance.py:204-211 | compounding breaks exactly when it was already broken or the step is undefined |
| Performance.CompoundStaysUndefined | src/portfolio_manager/analytics/performance.py:206-208 | once a prefix of sub-periods makes the return undefined the whole return is undefined (the early `return None`) |
| Performance.CompoundOfGrowths | src/portfolio_manager/analytics/performance.py:210-213 | when every sub-period grows, the compound is the product of the growth factors |
| Performance.SubPeriods | src/portfolio_manager/analytics/performance.py:168-170 | one sub-period step per pair of adjacent boundaries |
| Performance.ReturnOf | src/portfolio_manager/analytics/performance.py:213 | the TWR is undefined exactly when compounding broke; otherwise TWR + 1 is the compound factor |
| Performance.TwrBeforeFirstEvent | src/portfolio_manager/analytics/performance.py:146-151 | an empty ledger, or a start before the first event, gives no TWR |
| Performance.TwrOfSubPeriods | src/portfolio_manager/analytics/performance.py:153-213 | otherwise the TWR is the compounded return of the sub-periods between the boundaries |
| Performance.TwrSameDay | src/portfolio_manager/analytics/performance.py:153-213 | a period that starts and ends on the same day has TWR 0 |
| Performance.Twr | src/portfolio_manager/analytics/performance.py:119-213 | the TWR specification; its meaning is stated by TwrBeforeFirstEvent, TwrOfSubPeriods, TwrSameDay and TwrWithoutFlows |
| Performance.OneStepReturn | src/portfolio_manager/analytics/performance.py:204-213 | a single sub-period returns (end − start) / start, no value when only the start NAV is 0, and 0 when both are 0 |
| Performance.BoundariesWithoutFlows | src/portfolio_manager/analytics/performance.py:153-161 | with no external flows in the window the boundaries are just the start and the end |
| Performance.TwrWithoutFlows | src/portfolio_manager/analytics/performance.py:119-213 | with no external flows the TWR is the simple NAV return (end − start) / start, none when the start NAV alone is 0, 0 when both are 0 |
| Performance.SubPeriodNavs | src/portfolio_manager/analytics/performance.py:172-202 | the start NAV is the replayed NAV at the sub-period start; the end NAV is the replayed NAV at its end minus the external flows dated on that day |
| Performance.CompoundSubPeriods | src/portfolio_manager/analytics/performance.py:166-213 | the loop's result is the compound of all sub-period steps, stopping as undefined at the first zero-start sub-period with a non-zero end |
| Performance.CalculateTwr | src/portfolio_manager/analytics/performance.py:119-213 | the method returns the TWR specification for every ledger, window and price source |
| Performance.StockPriceReturn | src/portfolio_manager/analytics/performance.py:216-238 | no value exactly when either price is missing or the start price is 0 |
| Performance.StockPriceReturnScales | src/portfolio_manager/analytics/performance.py:238 | start price × (1 + R) = end price |
| Performance.TwrToPnl | src/portfolio_manager/analytics/performance.py:241-255 | no value exactly when the TWR is missing or −1 |
| Performance.PnlScales | src/portfolio_manager/analytics/performance.py:250-255 | P&L × (1 + TWR) = NAV × TWR |
| Performance.PnlHasSignOfTwr | src/portfolio_manager/analytics/performance.py:246-249 | for positive NAV and TWR above −1 the P&L is positive, zero or negative exactly as the TWR is |
| Performance.PnlIsNavChange | src/portfolio_manager/analytics/performance.py:246-247 | without mid-period flows the derived P&L is exactly the NAV change |
| Performance.Roi | src/portfolio_manager/analytics/performance.py:272-274 | no ROI exactly when net deposits are not positive |
| Performance.RoiScales | src/portfolio_manager/analytics/performance.py:262-274 | net deposits × (1 + ROI) = current NAV |
| Performance.NetDepositsStep | src/portfolio_manager/analytics/performance.py:266-271 | each event changes net deposits by its amount for cash_in, minus it for cash_out, and not at all otherwise |
| Performance.NetDeposits | src/portfolio_manager/analytics/performance.py:266-271 | deposits minus withdrawals over the ledger; its meaning is stated by NetDepositsStep and DepositRoi |
| Performance.DepositRoi | src/portfolio_manager/analytics/performance.py:258-274 | the loop's result is the ROI on deposits minus withdrawals over the whole ledger |
| Performance.PrevYearNav | src/portfolio_manager/analytics/performance.py:344-349 | the estimated year-end NAV × (1 + YTD) = NAV when YTD is usable, otherwise the NAV itself |
| Performance.TotalReturn | src/portfolio_manager/analytics/performance.py:377-381 | cost × (1 + total return) = last price, or 0 when the cost is 0 |
| Performance.DailyPnlPct | src/portfolio_manager/analytics/performance.py:397-398 | pct × previous NAV = daily P&L × 100, or 0 when the previous NAV is 0 |
| Performance.ReturnFrom | src/portfolio_manager/analytics/performance.py:355-359 | a stock return exists exactly when the anchor exists and the price return from it exists |
| Performance.StockPerformanceOf | src/portfolio_manager/analytics/performance.py:360-395 | the row keeps the symbol and name, and has a previous-year return only when both previous-year anchors exist |
| Performance.PeriodReturn | src/portfolio_manager/analytics/performance.py:308-312 | no anchor gives no TWR; otherwise the TWR from the anchor to the end |
| Performance.StockPerformances | src/portfolio_manager/analytics/performance.py:354-395 | one row per position, in order, each the per-stock specification |
| Performance.CalculatePortfolioPerformance | src/portfolio_manager/analytics/performance.py:277-420 | the report's inception date is the first event's (today for an empty ledger); each period TWR is the specification over the resolved anchors; each P&L is derived from its TWR and the NAV (the previous year's from the estimated year-end NAV); the ROI is on net deposits; the stock rows, daily percentage, NAV and date are as specified |
| Rebalancing.Max3 | src/portfolio_manager/analytics/rebalancing.py:48-52 | the maximum is one of the three and at least each |
| Rebalancing.Trunc | src/portfolio_manager/analytics/rebalancing.py:108 | Python `int()` truncates towards zero, for either sign |
| Rebalancing.Ceil | src/portfolio_manager/analytics/rebalancing.py:134 | `math.ceil` gives the least integer at or above its argument |
| Rebalancing.Tail | src/portfolio_manager/analytics/rebalancing.py:29-34 | pandas `tail(n)` is a suffix of length min(n, rows) for n ≥ 0 and of all but the first \|n\| rows for n < 0 |
| Rebalancing.TrueRanges | src/portfolio_manager/analytics/rebalancing.py:39-57 | one True Range per candle |
| Rebalancing.TrueRangesAt | src/portfolio_manager/analytics/rebalancing.py:43-57 | the i-th True Range uses the previous candle's close, or the seed for the first |
| Rebalancing.CalculateAtr | src/portfolio_manager/analytics/rebalancing.py:16-62 | the row-by-row loop returns the ATR specification |
| Rebalancing.AtrOfLastPeriod | src/portfolio_manager/analytics/rebalancing.py:27-62 | with at least `period` rows the ATR is the mean of the True Ranges of the last `period` candles, seeded by the close before them when there is one |
| Rebalancing.AtrUnavailable | src/portfolio_manager/analytics/rebalancing.py:24-25 | fewer rows than the period, or a zero period, give no ATR |
| Rebalancing.Atr | src/portfolio_manager/analytics/rebalancing.py:16-62 | the ATR specification; its meaning is stated by AtrOfLastPeriod, AtrUnavailable and AtrNonNegative |
| Rebalancing.TrueRangesNonNegative | src/portfolio_manager/analytics/rebalancing.py:47-56 | for candles whose high is at least their low, the True Ranges sum to a non-negative amount |
| Rebalancing.AtrNonNegative | src/portfolio_manager/analytics/rebalancing.py:59-62 | under the same condition the ATR is non-negative |
| Rebalancing.AtrGapExample | src/portfolio_manager/analytics/rebalancing.py:43-57 | a worked example in which a gap up counts from the previous close |
| Rebalancing.Suggestions | src/portfolio_manager/analytics/rebalancing.py:80-85 | at most one suggestion per position, and none at all when the NAV is 0 |
| Rebalancing.WeightBasedRebalance | src/portfolio_manager/analytics/rebalancing.py:65-163 | the loop returns the suggestion specification |
| Rebalancing.SuggestionSkips | src/portfolio_manager/analytics/rebalancing.py:86-100 | a suggestion is made exactly when the symbol has a target, the drift exceeds the threshold, the price is non-zero and the whole-share quantity to buy (capped by cash) or to sell (capped by holdings) is at least one |
| Rebalancing.BuyQuantityIsTight | src/portfolio_manager/analytics/rebalancing.py:104-111 | a buy's cost fits both the cash and the value gap, and one more share would not fit the smaller of them |
| Rebalancing.SellQuantityBounded | src/portfolio_manager/analytics/rebalancing.py:132-141 | a sell never exceeds the whole shares held nor the rounded-up share gap |
| Rebalancing.SuggestionSizing | src/portfolio_manager/analytics/rebalancing.py:102-161 | a suggestion is for the position's symbol with reason `weight`; it is a BUY exactly when the position is under its target value; its quantity is positive and sized accordingly, and its value is quantity × price |
| Rebalancing.SuggestionFor | src/portfolio_manager/analytics/rebalancing.py:86-161 | the per-position weight logic; its meaning is stated by SuggestionSkips and SuggestionSizing |
| Rebalancing.SuggestionsAppend | src/portfolio_manager/analytics/rebalancing.py:85-163 | positions are handled independently and in order |
| Rebalancing.SuggestionsComeFromPositions | src/portfolio_manager/analytics/rebalancing.py:85-163 | each suggestion is the suggestion for one of the positions |
| Rebalancing.SuggestionsComplete | src/portfolio_manager/analytics/rebalancing.py:85-163 | every position that has a suggestion contributes it to the result |
| Rebalancing.BuyCappedByCashExample | src/portfolio_manager/analytics/rebalancing.py:104-113 | a 40000 gap with 500 cash at price 200 buys 2 shares worth 400 |
| Rebalancing.ClassifyMonotone | src/portfolio_manager/analytics/rebalancing.py:199-211 | a higher price never gets a lower signal zone |
| Rebalancing.ClassifyInRange | src/portfolio_manager/analytics/rebalancing.py:199-211 | in range exactly between lower band + ATR/2 and upper band − ATR/2; breach upper exactly above the upper band |
| Rebalancing.Classify | src/portfolio_manager/analytics/rebalancing.py:199-211 | the five-way signal; its meaning is stated by ClassifyInRange and ClassifyMonotone |
| Rebalancing.BandAround | src/portfolio_manager/analytics/rebalancing.py:195-196 | the bands are centred on the cost price and 2 × multiplier × ATR apart |
| Rebalancing.Bands | src/portfolio_manager/analytics/rebalancing.py:182-226 | at most one band per position |
| Rebalancing.AtrBasedRebalance | src/portfolio_manager/analytics/rebalancing.py:166-226 | the loop returns the band specification |
| Rebalancing.BandShape | src/portfolio_manager/analytics/rebalancing.py:184-224 | a band exists exactly when the symbol has non-empty candles with an ATR; it carries that ATR, the bands around the cost, and the signal of the last price |
| Rebalancing.BandFor | src/portfolio_manager/analytics/rebalancing.py:184-224 | the band of one position; its meaning is stated by BandShape |
| Rebalancing.BandsAppend | src/portfolio_manager/analytics/rebalancing.py:184-224 | positions are handled independently and in order |
| Rebalancing.BandsStep | src/portfolio_manager/analytics/rebalancing.py:184-224 | one more position adds its band, if it has one, at the end |
| MarketData.LastIndexOf | src/portfolio_manager/api/market_data.py:96 | the last occurrence of a character, or −1 when there is none |
| MarketData.YahooSymbol | src/portfolio_manager/api/market_data.py:91-96 | a symbol without a dot is unchanged; otherwise the result is the part before the last dot |
| MarketData.YahooSymbolDropsSuffix | src/portfolio_manager/api/market_data.py:91-96 | base + "." + a dot-free suffix translates back to the base |
| MarketData.YahooSymbolExamples | src/portfolio_manager/api/market_data.py:91-96 | `AAPL.US` → `AAPL`, `BRK.B.US` → `BRK.B`, `AAPL` → `AAPL` |
| MarketData.NearestIsLatestInWindow | src/portfolio_manager/api/market_data.py:213-224 | the lookup finds nothing exactly when no day in the five-day window has a price; otherwise it finds the latest priced day in the window |
| MarketData.Nearest | src/portfolio_manager/api/market_data.py:213-224 | the look-back search; its meaning is stated by NearestIsLatestInWindow |
| MarketData.PriceCache.constructor | src/portfolio_manager/api/market_data.py:165-171 | the cache holds the given per-symbol prices |
| MarketData.PriceCache.GetClose | src/portfolio_manager/api/market_data.py:202-224 | an unknown symbol has no price, the exact day wins, and otherwise the look-back search is used |
| MarketData.PriceCache.Close | src/portfolio_manager/api/market_data.py:209-224 | the close-price lookup as a function; its meaning is stated by GetClose and NearestIsLatestInWindow |
| MarketData.PriceCache.Source | src/portfolio_manager/api/market_data.py:209-224 | a snapshot of the cache as a price-source value answers every (symbol, day) query exactly as get_close does |
| MarketData.PriceCache.GetCloses | src/portfolio_manager/api/market_data.py:226-235 | the result holds exactly the requested symbols that have a close, each with that close |
| MarketData.WeekendFallbackExample | src/portfolio_manager/api/market_data.py:217-224 | a Friday close serves the following Sunday; six days later it is out of range |

## Left out

- Network and broker calls are not modelled: quotes, candlesticks, trade history, cash flows and trading days come from the broker and Yahoo APIs, which are external services. Their results are parameters of the model.
- `_get_prices_at_date` (performance.py) is not modelled. It chooses between today's live quotes and the cache, so the model replaces it with the abstract `PriceSource`.
- The `PriceCache` constructor's download and frame parsing (`_yahoo_download`, `_yahoo_df_to_ohlcv`, `_extract_ticker_df`) are I/O. The model's constructor receives the parsed price map, and close values that are NaN are taken to be absent already.
- `_to_decimal` and `_to_utc_date` are conversions of library values that have no counterpart in the model.
- Logging and the text of warnings and the `detail` text of a suggestion are not modelled (its `reason` is). A mismatch is a value that carries the symbol and both quantities, and an unpriced position is returned as a set of symbols.
- Decimal's 28-digit context is not modelled, and neither is its rounding: `real` arithmetic is exact.
- Ledger.Lower lower-cases ASCII letters only, because Unicode case mapping is not modelled.
- The configuration loader, report renderer, e-mail sender, positions fetcher, API client and `main.py` are not part of this model.
- Performance.ResolveAnchors requires a year of at least 3. The source raises an error for earlier years, because `date(year - 2, 12, 31)` does not exist.
- Performance.CalculatePortfolioPerformance requires that every buy and sell in the ledger has a symbol, which `build_ledger` guarantees (`Ledger.BuildLedger`); the source would stop on an assertion otherwise.
- Performance.CalculatePortfolioPerformance does not read the clock: today's date is a parameter.
- Ledger.Replay requires symbols only on the trades it consumes, which matches the assertions in `replay_to_date`. Performance.CalculateTwr requires the same of every trade up to the later of its start and end, even on the paths that return before replaying (a start before the first event, or a start equal to the end); every ledger it receives comes from `build_ledger`, whose trades all have symbols (`Ledger.BuildLedger`).
- Ledger.CashFlowEventsInPeriod: its own contract states only the length bound; its meaning is stated by `Ledger.CashFlowsExactly` and `Ledger.CashFlowsAppend`.
- Performance.CalculateTwr: the product form of the TWR over arbitrary sub-periods is proved only when every sub-period grows (`Performance.CompoundOfGrowths`), and the closed form only for a window without flows (`Performance.TwrWithoutFlows`).
