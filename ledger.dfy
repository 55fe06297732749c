/**
 * The event ledger: merging trade and cash-flow rows into one ordered timeline,
 * replaying it to recover holdings and cash at a date, valuing a state, and the
 * small consumers of the timeline (flow filter, closed positions, consistency).
 */
module Ledger {
  import opened Wrappers
  import opened Types
  import Sorting

  // =====================================================================
  // Event ordering
  // =====================================================================

  /** The type-precedence table: cash events sort before trades on one date; unknown types last. */
  function Rank(k: EventKind): (r: int)
    ensures 0 <= r <= 99
    ensures r <= 2 <==> (k.CashIn? || k.CashOut? || k.Dividend?)
  {
    match k
    case CashIn => 0
    case CashOut => 1
    case Dividend => 2
    case Buy => 3
    case Sell => 4
    case Other(_) => 99
  }

  /** The sort key `(date, rank)` packed into one integer; rank is below 100. */
  function EventKey(e: LedgerEvent): (k: int)
    ensures k / 100 == e.date && k % 100 == Rank(e.kind)
  {
    e.date * 100 + Rank(e.kind)
  }

  /** Comparing packed keys is comparing `(date, rank)` lexicographically. */
  lemma EventKeyIsLexicographic(a: LedgerEvent, b: LedgerEvent)
    ensures EventKey(a) <= EventKey(b) <==>
            a.date < b.date || (a.date == b.date && Rank(a.kind) <= Rank(b.kind))
  {
    if a.date < b.date {
      assert a.date * 100 <= b.date * 100 - 100;
    } else if a.date > b.date {
      assert b.date * 100 <= a.date * 100 - 100;
    }
  }

  /** Ascending by date, and by type rank within a date. */
  ghost predicate LedgerOrdered(s: seq<LedgerEvent>) {
    forall i, j :: 0 <= i < j < |s| ==>
      s[i].date < s[j].date || (s[i].date == s[j].date && Rank(s[i].kind) <= Rank(s[j].kind))
  }

  lemma SortedByKeyIsOrdered(s: seq<LedgerEvent>)
    requires Sorting.SortedBy(s, EventKey)
    ensures LedgerOrdered(s)
  {
    forall i, j | 0 <= i < j < |s|
      ensures s[i].date < s[j].date || (s[i].date == s[j].date && Rank(s[i].kind) <= Rank(s[j].kind))
    {
      EventKeyIsLexicographic(s[i], s[j]);
    }
  }

  /** In an ordered ledger no trade precedes a cash event of the same date. */
  lemma CashPrecedesTradesOnADate(s: seq<LedgerEvent>, i: int, j: int)
    requires LedgerOrdered(s)
    requires 0 <= i < |s| && 0 <= j < |s| && s[i].date == s[j].date
    requires (s[i].kind.Buy? || s[i].kind.Sell?) && (s[j].kind.CashIn? || s[j].kind.CashOut? || s[j].kind.Dividend?)
    ensures j < i
  {
  }

  // =====================================================================
  // Ledger builder
  // =====================================================================

  datatype TradeRow = TradeRow(date: int, symbol: string, side: string, quantity: real, price: real, orderId: string)

  /** direction: 1 = outflow, 2 = inflow; businessType: 1 = cash, 2 = stock settlement, 3 = fund. */
  datatype CashFlowRow = CashFlowRow(
    date: int, direction: int, businessType: int, amount: real, currency: string, description: string)

  function LowerChar(c: char): char {
    if 'A' <= c <= 'Z' then (c as int + 32) as char else c
  }

  /** `str.lower()`, for the ASCII letters. */
  function Lower(s: string): (r: string)
    ensures |r| == |s|
    ensures forall i :: 0 <= i < |s| ==> r[i] == LowerChar(s[i])
  {
    if s == [] then [] else [LowerChar(s[0])] + Lower(s[1..])
  }

  /** Python's `sub in s` on strings. */
  predicate Contains(s: string, sub: string) {
    exists i :: 0 <= i <= |s| - |sub| && OccursAt(s, sub, i)
  }

  predicate OccursAt(s: string, sub: string, i: int) {
    0 <= i <= |s| - |sub| && s[i..i + |sub|] == sub
  }

  /**
   * The dividend heuristic on a cash-flow description, isolated so that it can be
   * swapped per data source: the lower-cased text contains "dividend" or "div".
   */
  predicate DescribesDividend(description: string) {
    var d := Lower(description);
    Contains(d, "dividend") || Contains(d, "div")
  }

  /** The "dividend" test is subsumed: the heuristic is exactly "contains div". */
  lemma DividendHeuristicIsDiv(description: string)
    ensures DescribesDividend(description) <==> Contains(Lower(description), "div")
  {
    var d := Lower(description);
    if Contains(d, "dividend") {
      var i :| 0 <= i <= |d| - 8 && OccursAt(d, "dividend", i);
      assert d[i..i + 3] == d[i..i + 8][..3];
      assert "dividend"[..3] == "div";
      assert OccursAt(d, "div", i);
    }
  }

  /** A trade row becomes a buy when its lower-cased side is "buy", and a sell otherwise. */
  function TradeEvent(row: TradeRow): (e: LedgerEvent)
  {
    LedgerEvent(
      row.date,
      if Lower(row.side) == "buy" then Buy else Sell,
      Some(row.symbol),
      row.quantity,
      row.price,
      Some(row.orderId))
  }

  function Abs(x: real): real {
    if x < 0.0 then -x else x
  }

  /** A cash-flow row becomes a cash event, or nothing when it is a stock settlement. */
  function CashEvent(row: CashFlowRow): (e: Option<LedgerEvent>)
  {
    if row.businessType == 2 then None
    else
      var kind :=
        if row.direction == 2 && DescribesDividend(row.description) then Dividend
        else if row.direction == 2 then CashIn
        else CashOut;
      Some(LedgerEvent(row.date, kind, None, Abs(row.amount), 0.0, None))
  }

  lemma TradeRowMapping(row: TradeRow)
    ensures TradeEvent(row).date == row.date
    ensures TradeEvent(row).kind.Buy? <==> Lower(row.side) == "buy"
    ensures TradeEvent(row).kind.Sell? <==> Lower(row.side) != "buy"
    ensures TradeEvent(row).symbol == Some(row.symbol)
    ensures TradeEvent(row).quantity == row.quantity && TradeEvent(row).price == row.price
    ensures TradeEvent(row).orderId == Some(row.orderId)
  {
  }

  /** The cash-row rules, each stated for every row. */
  lemma CashRowMapping(row: CashFlowRow)
    ensures CashEvent(row).None? <==> row.businessType == 2
    ensures CashEvent(row).Some? ==>
      var e := CashEvent(row).value;
      && e.date == row.date
      && e.symbol.None? && e.orderId.None?
      && e.price == 0.0
      && e.quantity >= 0.0 && (e.quantity == row.amount || e.quantity == -row.amount)
      && (e.kind.CashOut? <==> row.direction != 2)
      && (e.kind.Dividend? <==> row.direction == 2 && Contains(Lower(row.description), "div"))
      && (e.kind.CashIn? <==> row.direction == 2 && !Contains(Lower(row.description), "div"))
  {
    DividendHeuristicIsDiv(row.description);
  }

  function TradeEvents(rows: seq<TradeRow>): (r: seq<LedgerEvent>)
    ensures |r| == |rows|
    ensures forall i :: 0 <= i < |rows| ==> r[i] == TradeEvent(rows[i])
  {
    if rows == [] then [] else TradeEvents(rows[..|rows| - 1]) + [TradeEvent(rows[|rows| - 1])]
  }

  /** The number of cash rows that are not stock settlements. */
  function KeptRows(rows: seq<CashFlowRow>): nat {
    if rows == [] then 0
    else KeptRows(rows[..|rows| - 1]) + (if rows[|rows| - 1].businessType == 2 then 0 else 1)
  }

  /**
   * The cash events of the rows, in row order: one per row that is not a stock
   * settlement, and each produced by some row.
   */
  function CashEvents(rows: seq<CashFlowRow>): (r: seq<LedgerEvent>)
    ensures |r| == KeptRows(rows) <= |rows|
    ensures forall e :: e in r ==> exists i :: 0 <= i < |rows| && CashEvent(rows[i]) == Some(e)
    ensures forall i :: 0 <= i < |rows| && CashEvent(rows[i]).Some? ==> CashEvent(rows[i]).value in r
  {
    if rows == [] then []
    else
      var last := rows[|rows| - 1];
      CashEvents(rows[..|rows| - 1]) + (match CashEvent(last) case Some(e) => [e] case None => [])
  }

  /** One more cash row adds its event, if it has one. */
  lemma CashEventsPrefixStep(rows: seq<CashFlowRow>, i: int)
    requires 0 <= i < |rows|
    ensures CashEvents(rows[..i + 1]) == CashEvents(rows[..i])
      + (if CashEvent(rows[i]).Some? then [CashEvent(rows[i]).value] else [])
  {
    assert rows[..i + 1][..i] == rows[..i];
  }

  /** Rows are converted independently and in order. */
  lemma {:induction false} CashEventsAppend(a: seq<CashFlowRow>, b: seq<CashFlowRow>)
    ensures CashEvents(a + b) == CashEvents(a) + CashEvents(b)
    decreases |b|
  {
    if b == [] {
      assert a + b == a;
    } else {
      var b' := b[..|b| - 1];
      assert (a + b)[..|a + b| - 1] == a + b';
      assert (a + b)[|a + b| - 1] == b[|b| - 1];
      CashEventsAppend(a, b');
    }
  }

  predicate IsTradeKind(k: EventKind) {
    k.Buy? || k.Sell?
  }

  /** Every buy and sell names a symbol, as replay asserts. */
  ghost predicate TradesHaveSymbols(s: seq<LedgerEvent>) {
    forall i :: 0 <= i < |s| && IsTradeKind(s[i].kind) ==> s[i].symbol.Some?
  }

  /** The unsorted timeline: all trade events in row order, then all cash events in row order. */
  function RawEvents(trades: seq<TradeRow>, cashFlows: seq<CashFlowRow>): seq<LedgerEvent> {
    TradeEvents(trades) + CashEvents(cashFlows)
  }

  lemma RawEventsHaveSymbols(trades: seq<TradeRow>, cashFlows: seq<CashFlowRow>)
    ensures forall e :: e in RawEvents(trades, cashFlows) && IsTradeKind(e.kind) ==> e.symbol.Some?
  {
    var t, c := TradeEvents(trades), CashEvents(cashFlows);
    forall e: LedgerEvent | e in c ensures !IsTradeKind(e.kind) {
      var i :| 0 <= i < |cashFlows| && CashEvent(cashFlows[i]) == Some(e);
    }
    forall e: LedgerEvent | e in t ensures e.symbol.Some? {
      var i :| 0 <= i < |t| && t[i] == e;
    }
  }

  /** The unsorted timeline holds every trade row's event and every kept cash row's event. */
  lemma RawEventsContainRows(trades: seq<TradeRow>, cashFlows: seq<CashFlowRow>)
    ensures |RawEvents(trades, cashFlows)| == |trades| + KeptRows(cashFlows)
    ensures forall i :: 0 <= i < |trades| ==> TradeEvent(trades[i]) in RawEvents(trades, cashFlows)
    ensures forall i :: 0 <= i < |cashFlows| && CashEvent(cashFlows[i]).Some? ==>
      CashEvent(cashFlows[i]).value in RawEvents(trades, cashFlows)
  {
    var t, c := TradeEvents(trades), CashEvents(cashFlows);
    forall i | 0 <= i < |trades| ensures TradeEvent(trades[i]) in t + c {
      assert t[i] == TradeEvent(trades[i]);
    }
  }

  /** Any stable sort of the raw timeline keeps every row's event, and every trade its symbol. */
  lemma SortedRawEvents(events: seq<LedgerEvent>, trades: seq<TradeRow>, cashFlows: seq<CashFlowRow>)
    requires Sorting.StablySorted(events, RawEvents(trades, cashFlows), EventKey)
    ensures TradesHaveSymbols(events)
    ensures |events| == |trades| + KeptRows(cashFlows)
    ensures forall i :: 0 <= i < |trades| ==> TradeEvent(trades[i]) in events
    ensures forall i :: 0 <= i < |cashFlows| && CashEvent(cashFlows[i]).Some? ==> CashEvent(cashFlows[i]).value in events
  {
    Sorting.StablySortedKeepsElements(events, RawEvents(trades, cashFlows), EventKey);
    RawEventsHaveSymbols(trades, cashFlows);
    RawEventsContainRows(trades, cashFlows);
    forall i | 0 <= i < |events| && IsTradeKind(events[i].kind) ensures events[i].symbol.Some? {
      assert events[i] in events;
    }
  }

  /**
   * build_ledger: the stable sort of the raw timeline by `(date, rank)`. Within one
   * `(date, rank)` key events keep their row order, trades before cash rows.
   */
  method BuildLedger(trades: seq<TradeRow>, cashFlows: seq<CashFlowRow>) returns (events: seq<LedgerEvent>)
    ensures Sorting.StablySorted(events, RawEvents(trades, cashFlows), EventKey)
    ensures LedgerOrdered(events)
    ensures TradesHaveSymbols(events)
    ensures |events| == |trades| + KeptRows(cashFlows)
    ensures forall i :: 0 <= i < |trades| ==> TradeEvent(trades[i]) in events
    ensures forall i :: 0 <= i < |cashFlows| && CashEvent(cashFlows[i]).Some? ==> CashEvent(cashFlows[i]).value in events
  {
    var unsorted: seq<LedgerEvent> := [];
    for i := 0 to |trades|
      invariant unsorted == TradeEvents(trades[..i])
    {
      assert trades[..i + 1][..i] == trades[..i];
      unsorted := unsorted + [TradeEvent(trades[i])];
    }
    assert trades[..|trades|] == trades;
    ghost var tradePart := unsorted;
    for i := 0 to |cashFlows|
      invariant unsorted == tradePart + CashEvents(cashFlows[..i])
    {
      CashEventsPrefixStep(cashFlows, i);
      if CashEvent(cashFlows[i]).Some? {
        unsorted := unsorted + [CashEvent(cashFlows[i]).value];
      }
    }
    assert cashFlows[..|cashFlows|] == cashFlows;
    assert unsorted == RawEvents(trades, cashFlows);
    events := Sorting.StableSort(unsorted, EventKey);
    SortedByKeyIsOrdered(events);
    SortedRawEvents(events, trades, cashFlows);
  }

  // =====================================================================
  // Replay
  // =====================================================================

  /** The running positions and cash of a replay. */
  datatype Holdings = Holdings(positions: map<string, real>, cash: real)

  /** `m.get(key, 0)`, for positions and for prices. */
  function GetOrZero(m: map<string, real>, key: string): real {
    if key in m then m[key] else 0.0
  }

  /** The effect of one event; a sell that brings a holding to zero deletes it. */
  function Apply(h: Holdings, e: LedgerEvent): Holdings
    requires IsTradeKind(e.kind) ==> e.symbol.Some?
  {
    match e.kind
    case Buy =>
      var sym := e.symbol.value;
      Holdings(h.positions[sym := GetOrZero(h.positions, sym) + e.quantity], h.cash - e.quantity * e.price)
    case Sell =>
      var sym := e.symbol.value;
      var q := GetOrZero(h.positions, sym) - e.quantity;
      Holdings(if q == 0.0 then h.positions - {sym} else h.positions[sym := q], h.cash + e.quantity * e.price)
    case CashIn => Holdings(h.positions, h.cash + e.quantity)
    case CashOut => Holdings(h.positions, h.cash - e.quantity)
    case Dividend => Holdings(h.positions, h.cash + e.quantity)
    case Other(_) => h
  }

  /** The events of `s` applied in order, starting from `init`. */
  function ApplyAll(s: seq<LedgerEvent>, init: Holdings): Holdings
    requires TradesHaveSymbols(s)
  {
    if s == [] then init
    else Apply(ApplyAll(s[..|s| - 1], init), s[|s| - 1])
  }

  /**
   * How many leading events replay consumes before it meets the first event
   * dated after `target` (and stops, whatever follows).
   */
  function AppliedCount(ledger: seq<LedgerEvent>, target: int): (n: nat)
    ensures n <= |ledger|
    ensures forall i :: 0 <= i < n ==> ledger[i].date <= target
    ensures n < |ledger| ==> ledger[n].date > target
  {
    if ledger == [] || ledger[0].date > target then 0
    else 1 + AppliedCount(ledger[1..], target)
  }

  /** The state replay_to_date returns: the applied prefix over empty positions and the initial cash. */
  function ReplayState(ledger: seq<LedgerEvent>, target: int, initialCash: real): PortfolioState
    requires TradesHaveSymbols(ledger[..AppliedCount(ledger, target)])
  {
    var h := ApplyAll(ledger[..AppliedCount(ledger, target)], Holdings(map[], initialCash));
    PortfolioState(target, h.positions, h.cash)
  }

  /** replay_to_date: positions and cash at the end of `target`. */
  method Replay(ledger: seq<LedgerEvent>, target: int, initialCash: real) returns (state: PortfolioState)
    requires TradesHaveSymbols(ledger[..AppliedCount(ledger, target)])
    ensures state == ReplayState(ledger, target, initialCash)
  {
    var positions: map<string, real> := map[];
    var cash := initialCash;
    ghost var n := AppliedCount(ledger, target);
    ghost var init := Holdings(map[], initialCash);
    var i := 0;
    while i < |ledger| && ledger[i].date <= target
      invariant i <= n
      invariant TradesHaveSymbols(ledger[..i])
      invariant Holdings(positions, cash) == ApplyAll(ledger[..i], init)
    {
      var e := ledger[i];
      PrefixStep(ledger, n, i, init);
      positions, cash := ApplyEvent(positions, cash, e);
      i := i + 1;
    }
    state := PortfolioState(target, positions, cash);
  }

  /** The body of replay's loop: one event changes the positions and the cash as `Apply` says. */
  method ApplyEvent(positions0: map<string, real>, cash0: real, e: LedgerEvent) returns (positions: map<string, real>, cash: real)
    requires IsTradeKind(e.kind) ==> e.symbol.Some?
    ensures Holdings(positions, cash) == Apply(Holdings(positions0, cash0), e)
  {
    positions, cash := positions0, cash0;
    match e.kind {
      case Buy =>
        var sym := e.symbol.value;
        positions := positions[sym := GetOrZero(positions, sym) + e.quantity];
        cash := cash - e.quantity * e.price;
      case Sell =>
        var sym := e.symbol.value;
        positions := positions[sym := GetOrZero(positions, sym) - e.quantity];
        cash := cash + e.quantity * e.price;
        if positions[sym] == 0.0 {
          positions := positions - {sym};
        }
      case CashIn =>
        cash := cash + e.quantity;
      case CashOut =>
        cash := cash - e.quantity;
      case Dividend =>
        cash := cash + e.quantity;
      case Other(_) =>
    }
  }

  /** One more event of a prefix: the replay of `s[..i + 1]` is `s[i]` applied to the replay of `s[..i]`. */
  lemma PrefixStep(s: seq<LedgerEvent>, n: int, i: int, init: Holdings)
    requires 0 <= i < n <= |s| && TradesHaveSymbols(s[..n])
    ensures TradesHaveSymbols(s[..i]) && TradesHaveSymbols(s[..i + 1])
    ensures IsTradeKind(s[i].kind) ==> s[i].symbol.Some?
    ensures ApplyAll(s[..i + 1], init) == Apply(ApplyAll(s[..i], init), s[i])
  {
    assert s[..n][i] == s[i];
    assert s[..i + 1][..i] == s[..i];
    assert forall j :: 0 <= j < i + 1 ==> s[..i + 1][j] == s[..n][j];
  }

  // ---------------------------------------------------------------------
  // What replay computes
  // ---------------------------------------------------------------------

  /** Sum of the quantities (amounts, for cash events) of the events of kind `k`. */
  function Amount(s: seq<LedgerEvent>, k: EventKind): real {
    if s == [] then 0.0
    else Amount(s[..|s| - 1], k) + (if s[|s| - 1].kind == k then s[|s| - 1].quantity else 0.0)
  }

  /** Sum of quantity times price over the events of kind `k`. */
  function Notional(s: seq<LedgerEvent>, k: EventKind): real {
    if s == [] then 0.0
    else
      var e := s[|s| - 1];
      Notional(s[..|s| - 1], k) + (if e.kind == k then e.quantity * e.price else 0.0)
  }

  /** Shares bought minus shares sold of `symbol` over `s`. */
  function NetQuantity(s: seq<LedgerEvent>, symbol: string): real {
    if s == [] then 0.0
    else
      var e := s[|s| - 1];
      NetQuantity(s[..|s| - 1], symbol) +
        (if e.symbol == Some(symbol) && e.kind.Buy? then e.quantity
         else if e.symbol == Some(symbol) && e.kind.Sell? then -e.quantity
         else 0.0)
  }

  /** Cash is the initial cash, less buy cost and withdrawals, plus sale proceeds, deposits and dividends. */
  lemma {:induction false} ReplayCash(s: seq<LedgerEvent>, init: Holdings)
    requires TradesHaveSymbols(s)
    ensures ApplyAll(s, init).cash ==
      init.cash - Notional(s, Buy) + Notional(s, Sell)
      + Amount(s, CashIn) + Amount(s, Dividend) - Amount(s, CashOut)
  {
    if s != [] {
      ReplayCash(s[..|s| - 1], init);
    }
  }

  /** The quantity held of every symbol is the initial one plus its net traded quantity. */
  lemma {:induction false} ReplayPositions(s: seq<LedgerEvent>, init: Holdings, symbol: string)
    requires TradesHaveSymbols(s)
    ensures GetOrZero(ApplyAll(s, init).positions, symbol) == GetOrZero(init.positions, symbol) + NetQuantity(s, symbol)
  {
    if s != [] {
      ReplayPositions(s[..|s| - 1], init, symbol);
    }
  }

  /** Only symbols held initially or traded in `s` can appear among the positions. */
  lemma {:induction false} ReplayedSymbolsAreTraded(s: seq<LedgerEvent>, init: Holdings, symbol: string)
    requires TradesHaveSymbols(s)
    requires symbol in ApplyAll(s, init).positions
    ensures symbol in init.positions || exists i :: 0 <= i < |s| && s[i].symbol == Some(symbol) && IsTradeKind(s[i].kind)
  {
    if s != [] {
      var p := s[..|s| - 1];
      var e := s[|s| - 1];
      if e.symbol != Some(symbol) || !IsTradeKind(e.kind) {
        ReplayedSymbolsAreTraded(p, init, symbol);
        if symbol !in init.positions {
          var i :| 0 <= i < |p| && p[i].symbol == Some(symbol) && IsTradeKind(p[i].kind);
          assert s[i] == p[i];
        }
      } else {
        assert s[|s| - 1].symbol == Some(symbol) && IsTradeKind(s[|s| - 1].kind);
      }
    }
  }

  /** Replaying `a + b` is replaying `b` from the state `a` leaves. */
  lemma {:induction false} ApplyAllAppend(a: seq<LedgerEvent>, b: seq<LedgerEvent>, init: Holdings)
    requires TradesHaveSymbols(a + b)
    ensures TradesHaveSymbols(a) && TradesHaveSymbols(b)
    ensures ApplyAll(a + b, init) == ApplyAll(b, ApplyAll(a, init))
    decreases |b|
  {
    assert forall i :: 0 <= i < |a| ==> a[i] == (a + b)[i];
    assert forall i :: 0 <= i < |b| ==> b[i] == (a + b)[|a| + i];
    if b == [] {
      assert a + b == a;
    } else {
      assert (a + b)[..|a + b| - 1] == a + b[..|b| - 1];
      ApplyAllAppend(a, b[..|b| - 1], init);
    }
  }

  /** A position none of whose values is zero. */
  ghost predicate ZeroFree(positions: map<string, real>) {
    forall sym :: sym in positions ==> positions[sym] != 0.0
  }

  /** No replayed prefix of `s` holds a negative quantity. */
  ghost predicate NeverShort(s: seq<LedgerEvent>, init: Holdings)
    requires TradesHaveSymbols(s)
  {
    forall n, sym :: 0 <= n <= |s| ==> GetOrZero(ApplyAll(s[..n], init).positions, sym) >= 0.0
  }

  /**
   * For a ledger that never goes short and buys positive quantities, replay keeps
   * no zero entries: a closed position disappears from the map.
   */
  lemma {:induction false} LongOnlyReplayIsZeroFree(s: seq<LedgerEvent>, init: Holdings)
    requires TradesHaveSymbols(s)
    requires ZeroFree(init.positions)
    requires NeverShort(s, init)
    requires forall i :: 0 <= i < |s| && s[i].kind.Buy? ==> s[i].quantity > 0.0
    ensures ZeroFree(ApplyAll(s, init).positions)
  {
    if s != [] {
      var p := s[..|s| - 1];
      assert forall n :: 0 <= n <= |p| ==> p[..n] == s[..n];
      assert forall n, sym :: 0 <= n <= |p| ==> GetOrZero(ApplyAll(p[..n], init).positions, sym) >= 0.0;
      LongOnlyReplayIsZeroFree(p, init);
      assert s[..|p|] == p;
      var e := s[|s| - 1];
      if e.kind.Buy? {
        assert GetOrZero(ApplyAll(s[..|p|], init).positions, e.symbol.value) >= 0.0;
      }
    }
  }

  /** The closing sell of a position removes the symbol; it leaves no zero entry. */
  lemma FullSellRemovesSymbol(h: Holdings, e: LedgerEvent)
    requires e.kind.Sell? && e.symbol.Some?
    requires GetOrZero(h.positions, e.symbol.value) == e.quantity
    ensures e.symbol.value !in Apply(h, e).positions
    ensures Apply(h, e).positions == h.positions - {e.symbol.value}
    ensures Apply(h, e).cash == h.cash + e.quantity * e.price
  {
  }

  /**
   * Buying a quantity of a symbol not held and then selling all of it restores
   * the positions; cash moves by the price difference times the quantity.
   */
  lemma BuyThenSellRoundTrip(h: Holdings, sym: string, qty: real, buyPrice: real, sellPrice: real, d1: int, d2: int)
    requires sym !in h.positions
    ensures
      var buy := LedgerEvent(d1, Buy, Some(sym), qty, buyPrice, None);
      var sell := LedgerEvent(d2, Sell, Some(sym), qty, sellPrice, None);
      var after := Apply(Apply(h, buy), sell);
      after.positions == h.positions && after.cash == h.cash + qty * (sellPrice - buyPrice)
  {
    var buy := LedgerEvent(d1, Buy, Some(sym), qty, buyPrice, None);
    assert Apply(h, buy).positions - {sym} == h.positions;
  }

  // ---------------------------------------------------------------------
  // Which events replay consumes
  // ---------------------------------------------------------------------

  /** On an ordered ledger replay consumes exactly the events dated on or before the target. */
  lemma {:induction false} OrderedAppliedCount(ledger: seq<LedgerEvent>, target: int)
    requires LedgerOrdered(ledger)
    ensures forall i :: 0 <= i < |ledger| ==> (i < AppliedCount(ledger, target) <==> ledger[i].date <= target)
  {
    var n := AppliedCount(ledger, target);
    forall i | n <= i < |ledger| ensures ledger[i].date > target {
      assert ledger[n].date <= ledger[i].date;
    }
  }

  /** A later target consumes at least as many events. */
  lemma {:induction false} AppliedCountMonotone(ledger: seq<LedgerEvent>, t1: int, t2: int)
    requires t1 <= t2
    ensures AppliedCount(ledger, t1) <= AppliedCount(ledger, t2)
    decreases |ledger|
  {
    if ledger != [] && ledger[0].date <= t1 {
      AppliedCountMonotone(ledger[1..], t1, t2);
    }
  }

  /**
   * Replay stops at the first event dated after the target: anything after it is
   * ignored, even events dated on or before the target.
   */
  lemma {:induction false} ReplayStopsAtFirstLaterEvent(ledger: seq<LedgerEvent>, more: seq<LedgerEvent>, target: int)
    requires AppliedCount(ledger, target) < |ledger|
    ensures AppliedCount(ledger + more, target) == AppliedCount(ledger, target)
    ensures (ledger + more)[..AppliedCount(ledger, target)] == ledger[..AppliedCount(ledger, target)]
    decreases |ledger|
  {
    if ledger[0].date <= target {
      assert (ledger + more)[1..] == ledger[1..] + more;
      ReplayStopsAtFirstLaterEvent(ledger[1..], more, target);
    }
  }

  /** The ledger of the replay test: a deposit, a buy of 100 at 180 and a sale of 50 at 190. */
  lemma ReplayExample()
    ensures
      var ledger := [
        LedgerEvent(1, CashIn, None, 20000.0, 0.0, None),
        LedgerEvent(2, Buy, Some("AAPL.US"), 100.0, 180.0, Some("ORD-001")),
        LedgerEvent(32, Sell, Some("AAPL.US"), 50.0, 190.0, Some("ORD-002"))];
      AppliedCount(ledger, 32) == 3 &&
      ReplayState(ledger, 32, 0.0) == PortfolioState(32, map["AAPL.US" := 50.0], 11500.0)
  {
    var ledger := [
        LedgerEvent(1, CashIn, None, 20000.0, 0.0, None),
        LedgerEvent(2, Buy, Some("AAPL.US"), 100.0, 180.0, Some("ORD-001")),
        LedgerEvent(32, Sell, Some("AAPL.US"), 50.0, 190.0, Some("ORD-002"))];
    assert AppliedCount(ledger, 32) == 3;
    var init := Holdings(map[], 0.0);
    assert ledger[..3] == ledger;
    assert ledger[..3][..2] == ledger[..2] && ledger[..2][..1] == ledger[..1] && ledger[..1][..0] == [];
    assert ledger[..1] == [ledger[0]] && ledger[..2] == ledger[..1] + [ledger[1]];
    assert ApplyAll([], init) == init;
    var h1 := ApplyAll(ledger[..1], init);
    assert h1 == Apply(init, ledger[0]) == Holdings(map[], 20000.0);
    var h2 := ApplyAll(ledger[..2], init);
    assert h2 == Apply(h1, ledger[1]) == Holdings(map["AAPL.US" := 100.0], 2000.0);
    assert ApplyAll(ledger, init) == Apply(h2, ledger[2]);
    var h3 := ApplyAll(ledger, init);
    assert h3.positions == map["AAPL.US" := 50.0];
  }

  // =====================================================================
  // Valuation
  // =====================================================================

  /** The market value of one holding, a missing price counting as zero. */
  function Worth(positions: map<string, real>, prices: map<string, real>, sym: string): real
    requires sym in positions
  {
    positions[sym] * GetOrZero(prices, sym)
  }

  /** The market value of the positions named in `keys`. */
  ghost function ValueOf(keys: set<string>, positions: map<string, real>, prices: map<string, real>): real
    requires keys <= positions.Keys
  {
    if keys == {} then 0.0
    else
      var sym :| sym in keys;
      Worth(positions, prices, sym) + ValueOf(keys - {sym}, positions, prices)
  }

  /** The market value of all positions: the sum of quantity times price. */
  ghost function StockValue(positions: map<string, real>, prices: map<string, real>): real {
    ValueOf(positions.Keys, positions, prices)
  }

  /** The sum is independent of the order the symbols are visited in. */
  lemma {:induction false} ValueOfRemove(keys: set<string>, positions: map<string, real>, prices: map<string, real>, sym: string)
    requires keys <= positions.Keys && sym in keys
    ensures ValueOf(keys, positions, prices) ==
      Worth(positions, prices, sym) + ValueOf(keys - {sym}, positions, prices)
    decreases |keys|
  {
    var y :| y in keys && ValueOf(keys, positions, prices) ==
      Worth(positions, prices, y) + ValueOf(keys - {y}, positions, prices);
    if y != sym {
      ValueOfRemove(keys - {y}, positions, prices, sym);
      ValueOfRemove(keys - {sym}, positions, prices, y);
      assert keys - {y} - {sym} == keys - {sym} - {y};
    }
  }

  /** Only the quantities of the named symbols matter. */
  lemma {:induction false} ValueOfAgree(keys: set<string>, p1: map<string, real>, p2: map<string, real>, prices: map<string, real>)
    requires keys <= p1.Keys && keys <= p2.Keys
    requires forall sym :: sym in keys ==> p1[sym] == p2[sym]
    ensures ValueOf(keys, p1, prices) == ValueOf(keys, p2, prices)
    decreases |keys|
  {
    if keys != {} {
      var sym :| sym in keys;
      ValueOfRemove(keys, p1, prices, sym);
      ValueOfRemove(keys, p2, prices, sym);
      ValueOfAgree(keys - {sym}, p1, p2, prices);
    }
  }

  /** Removing a held symbol removes exactly its quantity times its price. */
  lemma StockValueRemove(positions: map<string, real>, prices: map<string, real>, sym: string)
    requires sym in positions
    ensures StockValue(positions, prices) ==
      positions[sym] * GetOrZero(prices, sym) + StockValue(positions - {sym}, prices)
  {
    ValueOfRemove(positions.Keys, positions, prices, sym);
    assert (positions - {sym}).Keys == positions.Keys - {sym};
    ValueOfAgree(positions.Keys - {sym}, positions, positions - {sym}, prices);
  }

  /** A held symbol without a price adds nothing to the value. */
  lemma StockValueMissingPrice(positions: map<string, real>, prices: map<string, real>, sym: string)
    requires sym in positions && sym !in prices
    ensures StockValue(positions, prices) == StockValue(positions - {sym}, prices)
  {
    StockValueRemove(positions, prices, sym);
  }

  /** Long positions at non-negative prices have a non-negative value. */
  lemma {:induction false} ValueOfNonNegative(keys: set<string>, positions: map<string, real>, prices: map<string, real>)
    requires keys <= positions.Keys
    requires forall sym :: sym in positions ==> positions[sym] >= 0.0
    requires forall sym :: sym in prices ==> prices[sym] >= 0.0
    ensures ValueOf(keys, positions, prices) >= 0.0
    decreases |keys|
  {
    if keys != {} {
      var sym :| sym in keys;
      ValueOfRemove(keys, positions, prices, sym);
      ValueOfNonNegative(keys - {sym}, positions, prices);
    }
  }

  /**
   * get_nav_at_date: stock value, cash and their sum, plus the set of long
   * positions valued without a price (each of which the source logs a warning for).
   */
  method NavAtDate(state: PortfolioState, prices: map<string, real>) returns (snapshot: NavSnapshot, unpriced: set<string>)
    ensures snapshot.date == state.date && snapshot.cashValue == state.cash
    ensures snapshot.stockValue == StockValue(state.positions, prices)
    ensures snapshot.totalNav == snapshot.stockValue + snapshot.cashValue
    ensures forall sym :: sym in unpriced <==>
      sym in state.positions && GetOrZero(prices, sym) == 0.0 && state.positions[sym] > 0.0
  {
    var stock := 0.0;
    unpriced := {};
    var rest := state.positions.Keys;
    while rest != {}
      invariant rest <= state.positions.Keys
      invariant stock + ValueOf(rest, state.positions, prices) == StockValue(state.positions, prices)
      invariant forall sym :: sym in unpriced <==>
        sym in state.positions && sym !in rest && GetOrZero(prices, sym) == 0.0 && state.positions[sym] > 0.0
      decreases |rest|
    {
      var sym :| sym in rest;
      if GetOrZero(prices, sym) == 0.0 && state.positions[sym] > 0.0 {
        unpriced := unpriced + {sym};
      }
      ValueOfRemove(rest, state.positions, prices, sym);
      stock := stock + Worth(state.positions, prices, sym);
      rest := rest - {sym};
    }
    snapshot := NavSnapshot(state.date, stock + state.cash, stock, state.cash);
  }

  /** With no positions the NAV is the cash. */
  lemma NavOfCashOnlyPortfolio(prices: map<string, real>)
    ensures StockValue(map[], prices) == 0.0
  {
  }

  // =====================================================================
  // External cash flows in a window
  // =====================================================================

  /** A deposit or withdrawal dated strictly after `start` and on or before `end`. */
  predicate IsExternalFlowIn(e: LedgerEvent, start: int, end: int) {
    start < e.date <= end && (e.kind.CashIn? || e.kind.CashOut?)
  }

  /** get_cash_flow_events_in_period: the deposits and withdrawals in `(start, end]`, in ledger order. */
  function CashFlowEventsInPeriod(ledger: seq<LedgerEvent>, start: int, end: int): (r: seq<LedgerEvent>)
    ensures |r| <= |ledger|
  {
    if ledger == [] then []
    else
      var e := ledger[|ledger| - 1];
      CashFlowEventsInPeriod(ledger[..|ledger| - 1], start, end) + (if IsExternalFlowIn(e, start, end) then [e] else [])
  }

  /** The result holds exactly the ledger's deposits and withdrawals inside the window. */
  lemma {:induction false} CashFlowsExactly(ledger: seq<LedgerEvent>, start: int, end: int)
    ensures forall e :: e in CashFlowEventsInPeriod(ledger, start, end) <==> e in ledger && IsExternalFlowIn(e, start, end)
  {
    if ledger != [] {
      var p := ledger[..|ledger| - 1];
      CashFlowsExactly(p, start, end);
      assert ledger == p + [ledger[|ledger| - 1]];
    }
  }

  /** Filtering distributes over concatenation, so the result keeps the ledger's order. */
  lemma {:induction false} CashFlowsAppend(a: seq<LedgerEvent>, b: seq<LedgerEvent>, start: int, end: int)
    ensures CashFlowEventsInPeriod(a + b, start, end) ==
      CashFlowEventsInPeriod(a, start, end) + CashFlowEventsInPeriod(b, start, end)
    decreases |b|
  {
    if b == [] {
      assert a + b == a;
    } else {
      assert (a + b)[..|a + b| - 1] == a + b[..|b| - 1];
      CashFlowsAppend(a, b[..|b| - 1], start, end);
    }
  }

  /** Filtering twice is filtering once. */
  lemma {:induction false} CashFlowsIdempotent(ledger: seq<LedgerEvent>, start: int, end: int)
    ensures CashFlowEventsInPeriod(CashFlowEventsInPeriod(ledger, start, end), start, end) ==
      CashFlowEventsInPeriod(ledger, start, end)
  {
    if ledger != [] {
      var p := ledger[..|ledger| - 1];
      var e := ledger[|ledger| - 1];
      var fp := CashFlowEventsInPeriod(p, start, end);
      CashFlowsIdempotent(p, start, end);
      CashFlowsAppend(fp, if IsExternalFlowIn(e, start, end) then [e] else [], start, end);
      assert CashFlowEventsInPeriod([e], start, end) == (if IsExternalFlowIn(e, start, end) then [e] else []) by {
        assert [e][..0] == [];
      }
    }
  }

  /** A ledger without deposits or withdrawals inside the window yields no flows. */
  lemma {:induction false} CashFlowsNone(ledger: seq<LedgerEvent>, start: int, end: int)
    requires forall e :: e in ledger ==> !IsExternalFlowIn(e, start, end)
    ensures CashFlowEventsInPeriod(ledger, start, end) == []
  {
    if ledger != [] {
      var p := ledger[..|ledger| - 1];
      assert forall e :: e in p ==> e in ledger;
      CashFlowsNone(p, start, end);
      assert ledger[|ledger| - 1] in ledger;
    }
  }

  /** An empty window `(start, end]` with `end <= start` holds no flows. */
  lemma {:induction false} CashFlowsEmptyWindow(ledger: seq<LedgerEvent>, start: int, end: int)
    requires end <= start
    ensures CashFlowEventsInPeriod(ledger, start, end) == []
  {
    if ledger != [] {
      CashFlowsEmptyWindow(ledger[..|ledger| - 1], start, end);
    }
  }

  // =====================================================================
  // Closed positions
  // =====================================================================

  /** Lifetime trade totals of one symbol. */
  datatype Acc = Acc(buyQty: real, buyCost: real, sellQty: real, sellProceeds: real, firstDate: int, lastDate: int)

  /** The per-symbol totals, with the symbols in order of first appearance (a dict's insertion order). */
  datatype Aggregation = Aggregation(order: seq<string>, data: map<string, Acc>)

  /** Adds one trade to a symbol's totals. */
  function Record(a: Acc, e: LedgerEvent): Acc {
    var a' :=
      if e.kind.Buy? then a.(buyQty := a.buyQty + e.quantity, buyCost := a.buyCost + e.quantity * e.price)
      else a.(sellQty := a.sellQty + e.quantity, sellProceeds := a.sellProceeds + e.quantity * e.price);
    a'.(firstDate := if e.date < a.firstDate then e.date else a.firstDate,
        lastDate := if e.date > a.lastDate then e.date else a.lastDate)
  }

  /** A buy or a sell naming `symbol`. */
  predicate IsTradeOf(e: LedgerEvent, symbol: string) {
    IsTradeKind(e.kind) && e.symbol == Some(symbol)
  }

  function AggregateStep(g: Aggregation, e: LedgerEvent): Aggregation {
    if !IsTradeKind(e.kind) || e.symbol.None? then g
    else
      var sym := e.symbol.value;
      if sym in g.data then Aggregation(g.order, g.data[sym := Record(g.data[sym], e)])
      else Aggregation(g.order + [sym], g.data[sym := Record(Acc(0.0, 0.0, 0.0, 0.0, e.date, e.date), e)])
  }

  /** The aggregation loop of get_closed_positions over the whole ledger. */
  function Aggregate(s: seq<LedgerEvent>): Aggregation {
    if s == [] then Aggregation([], map[])
    else AggregateStep(Aggregate(s[..|s| - 1]), s[|s| - 1])
  }

  /** The trades of `symbol`, in ledger order. */
  function TradesOf(s: seq<LedgerEvent>, symbol: string): seq<LedgerEvent> {
    if s == [] then []
    else TradesOf(s[..|s| - 1], symbol) + (if IsTradeOf(s[|s| - 1], symbol) then [s[|s| - 1]] else [])
  }

  /** The order lists each aggregated symbol exactly once. */
  ghost predicate WellFormed(g: Aggregation) {
    && (forall sym :: sym in g.data <==> sym in g.order)
    && (forall i, j :: 0 <= i < j < |g.order| ==> g.order[i] != g.order[j])
  }

  lemma {:induction false} AggregateWellFormed(s: seq<LedgerEvent>)
    ensures WellFormed(Aggregate(s))
  {
    if s != [] {
      AggregateWellFormed(s[..|s| - 1]);
    }
  }

  /** One more event: the trades of `symbol` grow by that event exactly when it is one of them. */
  lemma TradesOfStep(s: seq<LedgerEvent>, symbol: string)
    requires s != []
    ensures IsTradeOf(s[|s| - 1], symbol) ==> TradesOf(s, symbol) == TradesOf(s[..|s| - 1], symbol) + [s[|s| - 1]]
    ensures !IsTradeOf(s[|s| - 1], symbol) ==> TradesOf(s, symbol) == TradesOf(s[..|s| - 1], symbol)
  {
  }

  /** A symbol is aggregated exactly when it has a trade. */
  lemma {:induction false} AggregateMembership(s: seq<LedgerEvent>, symbol: string)
    ensures symbol in Aggregate(s).data <==> TradesOf(s, symbol) != []
  {
    if s != [] {
      AggregateMembership(s[..|s| - 1], symbol);
      TradesOfStep(s, symbol);
    }
  }

  /** The totals of each symbol are the sums over its trades: quantities, cost and proceeds. */
  lemma {:induction false} AggregateSums(s: seq<LedgerEvent>, symbol: string)
    requires symbol in Aggregate(s).data
    ensures
      var a := Aggregate(s).data[symbol];
      var t := TradesOf(s, symbol);
      && a.buyQty == Amount(t, Buy) && a.buyCost == Notional(t, Buy)
      && a.sellQty == Amount(t, Sell) && a.sellProceeds == Notional(t, Sell)
  {
    var p := s[..|s| - 1];
    var e := s[|s| - 1];
    TradesOfStep(s, symbol);
    var t := TradesOf(s, symbol);
    if IsTradeOf(e, symbol) {
      assert t[..|t| - 1] == TradesOf(p, symbol);
      AggregateMembership(p, symbol);
      if symbol in Aggregate(p).data {
        AggregateSums(p, symbol);
      } else {
        assert TradesOf(p, symbol) == [];
      }
    } else {
      AggregateSums(p, symbol);
    }
  }

  /** The first and last dates of a symbol are the earliest and latest dates of its trades. */
  lemma {:induction false} AggregateDates(s: seq<LedgerEvent>, symbol: string)
    requires symbol in Aggregate(s).data
    ensures
      var a := Aggregate(s).data[symbol];
      var t := TradesOf(s, symbol);
      && (forall e :: e in t ==> a.firstDate <= e.date <= a.lastDate)
      && (exists e :: e in t && e.date == a.firstDate)
      && (exists e :: e in t && e.date == a.lastDate)
  {
    var p := s[..|s| - 1];
    var e := s[|s| - 1];
    TradesOfStep(s, symbol);
    var t := TradesOf(s, symbol);
    if IsTradeOf(e, symbol) {
      AggregateMembership(p, symbol);
      assert e in t;
      if symbol in Aggregate(p).data {
        AggregateDates(p, symbol);
        var a0 := Aggregate(p).data[symbol];
        var f0 :| f0 in TradesOf(p, symbol) && f0.date == a0.firstDate;
        var l0 :| l0 in TradesOf(p, symbol) && l0.date == a0.lastDate;
        assert f0 in t && l0 in t;
      } else {
        assert TradesOf(p, symbol) == [];
        assert t == [e];
      }
    } else {
      AggregateDates(p, symbol);
    }
  }

  /** `ClosedPosition` from a symbol's totals; averages over a zero quantity are zero. */
  function ToClosed(symbol: string, a: Acc): (c: ClosedPosition)
    ensures c.symbol == symbol && c.totalBoughtQty == a.buyQty
    ensures c.firstTradeDate == a.firstDate && c.lastTradeDate == a.lastDate
    ensures a.buyQty != 0.0 ==> c.avgBuyPrice * a.buyQty == a.buyCost
    ensures a.sellQty != 0.0 ==> c.avgSellPrice * a.sellQty == a.sellProceeds
    ensures c.realizedPnl == a.sellProceeds - a.buyCost
    ensures c.avgBuyPrice != 0.0 ==> c.realizedPnlPct * c.avgBuyPrice == (c.avgSellPrice - c.avgBuyPrice) * 100.0
    ensures c.avgBuyPrice == 0.0 ==> c.realizedPnlPct == 0.0
  {
    var avgBuy := if a.buyQty != 0.0 then a.buyCost / a.buyQty else 0.0;
    var avgSell := if a.sellQty != 0.0 then a.sellProceeds / a.sellQty else 0.0;
    ClosedPosition(
      symbol, a.buyQty, avgBuy, avgSell, a.sellProceeds - a.buyCost,
      if avgBuy != 0.0 then (avgSell - avgBuy) / avgBuy * 100.0 else 0.0,
      a.firstDate, a.lastDate)
  }

  /** A symbol whose net quantity is zero and that is not currently held. */
  predicate IsClosed(a: Acc, symbol: string, current: set<string>) {
    a.buyQty - a.sellQty == 0.0 && symbol !in current
  }

  /** The closed positions in aggregation order, before sorting. */
  function Candidates(order: seq<string>, data: map<string, Acc>, current: set<string>): seq<ClosedPosition>
    requires forall sym :: sym in order ==> sym in data
  {
    if order == [] then []
    else
      var sym := order[|order| - 1];
      Candidates(order[..|order| - 1], data, current)
        + (if IsClosed(data[sym], sym, current) then [ToClosed(sym, data[sym])] else [])
  }

  /** The candidates are exactly the closed symbols' positions. */
  lemma {:induction false} CandidatesExactly(order: seq<string>, data: map<string, Acc>, current: set<string>)
    requires forall sym :: sym in order ==> sym in data
    ensures forall c :: c in Candidates(order, data, current) <==>
      c.symbol in order && IsClosed(data[c.symbol], c.symbol, current) && c == ToClosed(c.symbol, data[c.symbol])
  {
    if order != [] {
      var p := order[..|order| - 1];
      var sym := order[|order| - 1];
      assert forall x :: x in order <==> x in p || x == sym;
      CandidatesExactly(p, data, current);
    }
  }

  /** For a closed round trip the realised P&L is the quantity times the average price gain. */
  lemma ClosedPnl(symbol: string, a: Acc)
    requires a.buyQty == a.sellQty && a.buyQty != 0.0
    ensures ToClosed(symbol, a).realizedPnl ==
      ToClosed(symbol, a).totalBoughtQty * (ToClosed(symbol, a).avgSellPrice - ToClosed(symbol, a).avgBuyPrice)
  {
  }

  /** A symbol that is closed in the aggregation is flat in the replay of the same ledger. */
  lemma {:induction false} ClosedMeansFlat(s: seq<LedgerEvent>, symbol: string)
    requires symbol in Aggregate(s).data
    requires Aggregate(s).data[symbol].buyQty - Aggregate(s).data[symbol].sellQty == 0.0
    ensures NetQuantity(s, symbol) == 0.0
  {
    AggregateSums(s, symbol);
    NetQuantityOfTrades(s, symbol);
  }

  lemma {:induction false} NetQuantityOfTrades(s: seq<LedgerEvent>, symbol: string)
    ensures NetQuantity(s, symbol) == Amount(TradesOf(s, symbol), Buy) - Amount(TradesOf(s, symbol), Sell)
  {
    if s != [] {
      var p := s[..|s| - 1];
      var e := s[|s| - 1];
      NetQuantityOfTrades(p, symbol);
      var t := TradesOf(s, symbol);
      if IsTradeOf(e, symbol) {
        assert t == TradesOf(p, symbol) + [e];
        assert t[..|t| - 1] == TradesOf(p, symbol);
        assert t[|t| - 1] == e;
      } else {
        assert t == TradesOf(p, symbol);
      }
    }
  }

  /** The sort key of `closed.sort(key=last_trade_date, reverse=True)`: a stable ascending sort on the negated date. */
  function RecencyKey(c: ClosedPosition): int {
    -c.lastTradeDate
  }

  /**
   * get_closed_positions: the symbols whose bought and sold quantities are equal
   * and that are not currently held, most recent last trade first, ties in order
   * of first appearance.
   */
  /** One more ledger event extends the aggregation by one step. */
  lemma AggregatePrefixStep(s: seq<LedgerEvent>, i: int)
    requires 0 <= i < |s|
    ensures Aggregate(s[..i + 1]) == AggregateStep(Aggregate(s[..i]), s[i])
  {
    assert s[..i + 1][..i] == s[..i];
  }

  /** One more symbol of the order extends the candidates by at most one position. */
  lemma CandidatesPrefixStep(order: seq<string>, k: int, data: map<string, Acc>, current: set<string>)
    requires 0 <= k < |order|
    requires forall sym :: sym in order ==> sym in data
    ensures Candidates(order[..k + 1], data, current) == Candidates(order[..k], data, current)
      + (if IsClosed(data[order[k]], order[k], current) then [ToClosed(order[k], data[order[k]])] else [])
  {
    assert order[..k + 1][..k] == order[..k];
  }

  method ClosedPositions(ledger: seq<LedgerEvent>, currentSymbols: set<string>) returns (closed: seq<ClosedPosition>)
    ensures WellFormed(Aggregate(ledger))
    ensures Sorting.StablySorted(closed,
      Candidates(Aggregate(ledger).order, Aggregate(ledger).data, currentSymbols), RecencyKey)
    ensures forall i, j :: 0 <= i < j < |closed| ==> closed[i].lastTradeDate >= closed[j].lastTradeDate
  {
    var order: seq<string> := [];
    var data: map<string, Acc> := map[];
    for i := 0 to |ledger|
      invariant Aggregation(order, data) == Aggregate(ledger[..i])
    {
      AggregatePrefixStep(ledger, i);
      var e := ledger[i];
      if IsTradeKind(e.kind) && e.symbol.Some? {
        var sym := e.symbol.value;
        if sym !in data {
          order := order + [sym];
          data := data[sym := Acc(0.0, 0.0, 0.0, 0.0, e.date, e.date)];
        }
        data := data[sym := Record(data[sym], e)];
      }
    }
    assert ledger[..|ledger|] == ledger;
    AggregateWellFormed(ledger);
    var unsorted: seq<ClosedPosition> := [];
    for k := 0 to |order|
      invariant unsorted == Candidates(order[..k], data, currentSymbols)
    {
      CandidatesPrefixStep(order, k, data, currentSymbols);
      var sym := order[k];
      var a := data[sym];
      if a.buyQty - a.sellQty == 0.0 && sym !in currentSymbols {
        unsorted := unsorted + [ToClosed(sym, a)];
      }
    }
    assert order[..|order|] == order;
    closed := Sorting.StableSort(unsorted, RecencyKey);
    forall i, j | 0 <= i < j < |closed| ensures closed[i].lastTradeDate >= closed[j].lastTradeDate {
      assert RecencyKey(closed[i]) <= RecencyKey(closed[j]);
    }
  }

  /** The closed-position test: 100 bought at 150 and sold at 180 realise 3000, or 20 percent. */
  lemma ClosedPositionExample()
    ensures
      var ledger := [
        LedgerEvent(2, Buy, Some("AAPL.US"), 100.0, 150.0, Some("ORD-001")),
        LedgerEvent(60, Sell, Some("AAPL.US"), 100.0, 180.0, Some("ORD-002"))];
      var g := Aggregate(ledger);
      g.order == ["AAPL.US"] &&
      Candidates(g.order, g.data, {}) == [ClosedPosition("AAPL.US", 100.0, 150.0, 180.0, 3000.0, 20.0, 2, 60)]
  {
    var ledger := [
        LedgerEvent(2, Buy, Some("AAPL.US"), 100.0, 150.0, Some("ORD-001")),
        LedgerEvent(60, Sell, Some("AAPL.US"), 100.0, 180.0, Some("ORD-002"))];
    assert ledger[..1] == [ledger[0]] && [ledger[0]][..0] == [];
    assert Aggregate([ledger[0]]) == AggregateStep(Aggregation([], map[]), ledger[0]);
    var g1 := Aggregate(ledger[..1]);
    assert g1 == Aggregation(["AAPL.US"], map["AAPL.US" := Acc(100.0, 15000.0, 0.0, 0.0, 2, 2)]);
    var g := Aggregate(ledger);
    assert g == AggregateStep(g1, ledger[1]);
    assert g == Aggregation(["AAPL.US"], map["AAPL.US" := Acc(100.0, 15000.0, 100.0, 18000.0, 2, 60)]);
    assert g.order[..0] == [];
  }

  // =====================================================================
  // Position consistency
  // =====================================================================

  /** A symbol whose replayed quantity differs from the brokerage's (its message text is not modelled). */
  datatype PositionMismatch = PositionMismatch(symbol: string, replayed: real, current: real)

  /** `w` reports a real difference with the quantities on both sides. */
  predicate Reports(w: PositionMismatch, replayed: map<string, real>, current: map<string, real>) {
    && w.replayed == GetOrZero(replayed, w.symbol)
    && w.current == GetOrZero(current, w.symbol)
    && w.replayed != w.current
  }

  predicate Differs(sym: string, replayed: map<string, real>, current: map<string, real>) {
    GetOrZero(replayed, sym) != GetOrZero(current, sym)
  }

  predicate Warned(sym: string, warnings: seq<PositionMismatch>) {
    exists w :: w in warnings && w.symbol == sym
  }

  /** Warnings listed in strictly increasing symbol order. */
  ghost predicate InSymbolOrder(ws: seq<PositionMismatch>) {
    forall i, j :: 0 <= i < j < |ws| ==> Sorting.StrLess(ws[i].symbol, ws[j].symbol)
  }

  /** The warnings for `symbols`, visited in the given order. */
  function Mismatches(symbols: seq<string>, replayed: map<string, real>, current: map<string, real>): seq<PositionMismatch> {
    if symbols == [] then []
    else
      var sym := symbols[|symbols| - 1];
      var r := GetOrZero(replayed, sym);
      var c := GetOrZero(current, sym);
      Mismatches(symbols[..|symbols| - 1], replayed, current) + (if r != c then [PositionMismatch(sym, r, c)] else [])
  }

  /** Every warning reports a real difference for one of the visited symbols. */
  lemma {:induction false} MismatchesSound(symbols: seq<string>, replayed: map<string, real>, current: map<string, real>)
    ensures forall w :: w in Mismatches(symbols, replayed, current) ==> Reports(w, replayed, current) && w.symbol in symbols
  {
    if symbols != [] {
      MismatchesSound(symbols[..|symbols| - 1], replayed, current);
    }
  }

  /** Every visited symbol whose quantities differ is warned about. */
  lemma {:induction false} MismatchesComplete(symbols: seq<string>, replayed: map<string, real>, current: map<string, real>)
    ensures forall sym :: sym in symbols && Differs(sym, replayed, current) ==> Warned(sym, Mismatches(symbols, replayed, current))
  {
    if symbols != [] {
      var p := symbols[..|symbols| - 1];
      MismatchesComplete(p, replayed, current);
      var ws := Mismatches(symbols, replayed, current);
      forall sym | sym in symbols && Differs(sym, replayed, current) ensures Warned(sym, ws) {
        if sym in p {
          var w :| w in Mismatches(p, replayed, current) && w.symbol == sym;
          assert w in ws;
        } else {
          assert sym == symbols[|symbols| - 1];
          assert ws[|ws| - 1] in ws;
        }
      }
    }
  }

  /** Visiting the symbols in increasing order yields the warnings in increasing symbol order. */
  lemma {:induction false} MismatchesOrdered(symbols: seq<string>, replayed: map<string, real>, current: map<string, real>)
    requires Sorting.StrictlyIncreasing(symbols)
    ensures InSymbolOrder(Mismatches(symbols, replayed, current))
  {
    if symbols != [] {
      var p := symbols[..|symbols| - 1];
      var last := symbols[|symbols| - 1];
      assert Sorting.StrictlyIncreasing(p);
      MismatchesOrdered(p, replayed, current);
      MismatchesSound(p, replayed, current);
      var ps := Mismatches(p, replayed, current);
      var ws := Mismatches(symbols, replayed, current);
      var r := GetOrZero(replayed, last);
      var c := GetOrZero(current, last);
      assert ws == ps + (if r != c then [PositionMismatch(last, r, c)] else []);
      forall i, j | 0 <= i < j < |ws| ensures Sorting.StrLess(ws[i].symbol, ws[j].symbol) {
        if j == |ps| {
          assert ws[i] == ps[i] && ps[i] in ps;
          var m :| 0 <= m < |p| && p[m] == ps[i].symbol;
          assert p[m] == symbols[m];
          assert Sorting.StrLess(symbols[m], symbols[|symbols| - 1]);
          assert ws[j].symbol == last;
        } else {
          assert ws[i] == ps[i] && ws[j] == ps[j];
        }
      }
    }
  }

  /**
   * check_position_consistency: one warning per symbol, in sorted symbol order,
   * for exactly the symbols whose replayed and current quantities differ (absent
   * counting as zero).
   */
  method CheckPositionConsistency(replayed: PortfolioState, current: map<string, real>)
    returns (warnings: seq<PositionMismatch>)
    ensures InSymbolOrder(warnings)
    ensures forall w :: w in warnings ==> Reports(w, replayed.positions, current)
    ensures forall sym :: Differs(sym, replayed.positions, current) ==> Warned(sym, warnings)
  {
    var symbols := Sorting.SortStrings(replayed.positions.Keys + current.Keys);
    warnings := [];
    for k := 0 to |symbols|
      invariant warnings == Mismatches(symbols[..k], replayed.positions, current)
    {
      var sym := symbols[k];
      var r := GetOrZero(replayed.positions, sym);
      var c := GetOrZero(current, sym);
      assert symbols[..k + 1][..k] == symbols[..k];
      if r != c {
        warnings := warnings + [PositionMismatch(sym, r, c)];
      }
    }
    assert symbols[..|symbols|] == symbols;
    MismatchesSound(symbols, replayed.positions, current);
    MismatchesComplete(symbols, replayed.positions, current);
    MismatchesOrdered(symbols, replayed.positions, current);
    forall sym | Differs(sym, replayed.positions, current) ensures Warned(sym, warnings) {
      assert sym in replayed.positions.Keys + current.Keys;
    }
  }

}
