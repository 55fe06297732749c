/**
 * Performance metrics: calendar anchors snapped to trading days, the
 * time-weighted return of the portfolio, and the closed-form metrics derived
 * from it. Prices come from an abstract source `price(symbol, date)`, and the
 * current date is a parameter.
 */
module Performance {
  import opened Wrappers
  import opened Types
  import opened Calendar
  import opened Ledger
  import Sorting

  // ---------------------------------------------------------------------
  // Anchor dates
  // ---------------------------------------------------------------------

  /** The anchors of the reporting periods, as trading-day ordinals (None when unavailable). */
  datatype Anchors = Anchors(
    wow: Option<int>,
    mtd: Option<int>,
    qtd: Option<int>,
    ytd: Option<int>,
    prevYearStart: Option<int>,
    prevYearEnd: Option<int>,
    inception: int)

  /** The last element of `days` that is on or before `target`. */
  function LastAtMost(days: seq<int>, target: int): (r: Option<int>)
    ensures r.None? <==> forall i :: 0 <= i < |days| ==> days[i] > target
    ensures r.Some? ==> exists i :: 0 <= i < |days| && days[i] == r.value && r.value <= target &&
                                    (forall j :: i < j < |days| ==> days[j] > target)
  {
    if days == [] then None
    else if days[|days| - 1] <= target then Some(days[|days| - 1])
    else LastAtMost(days[..|days| - 1], target)
  }

  /** The nearest trading day on or before `target`, unless `target` precedes inception. */
  function Snap(target: int, inception: int, days: seq<int>): (r: Option<int>)
    ensures r.None? <==> target < inception || forall i :: 0 <= i < |days| ==> days[i] > target
    ensures r.Some? ==> r.value in days && r.value <= target
  {
    if target < inception then None else LastAtMost(days, target)
  }

  ghost predicate Ascending(days: seq<int>) {
    forall i, j :: 0 <= i < j < |days| ==> days[i] <= days[j]
  }

  /** Over an ascending calendar the snapped day is the greatest trading day on or before the target. */
  lemma SnapIsGreatest(target: int, inception: int, days: seq<int>)
    requires Ascending(days)
    requires Snap(target, inception, days).Some?
    ensures forall d :: d in days && d <= target ==> d <= Snap(target, inception, days).value
  {
    var r := Snap(target, inception, days).value;
    var i :| 0 <= i < |days| && days[i] == r && forall j :: i < j < |days| ==> days[j] > target;
    forall d | d in days && d <= target ensures d <= r {
      var k :| 0 <= k < |days| && days[k] == d;
      if k <= i {
        assert days[k] <= days[i];
      }
    }
  }

  /**
   * Inception is tested against the raw date only: a trading day before
   * inception can still be the anchor when the raw date is on or after it.
   */
  lemma SnapMayPrecedeInception()
    ensures Snap(10, 9, [8]) == Some(8)
  {
  }

  /** The first month of the quarter containing `month`. */
  function QuarterStart(month: int): (q: int)
    requires 1 <= month <= 12
    ensures q in {1, 4, 7, 10} && q <= month < q + 3
  {
    ((month - 1) / 3) * 3 + 1
  }

  /** The day before the first of the month: the last day of the previous month. */
  function MonthAnchor(asOf: Date): (r: int)
    requires ValidDate(asOf) && asOf.year >= 2
    ensures r == Ordinal(LastDayOfPreviousMonth(asOf.year, asOf.month))
    ensures r < Ordinal(asOf)
  {
    DayBeforeFirstOfMonth(asOf.year, asOf.month);
    Ordinal(Date(asOf.year, asOf.month, 1)) - 1
  }

  /** The day before the first of the quarter: the last day of the quarter before it. */
  function QuarterAnchor(asOf: Date): (r: int)
    requires ValidDate(asOf) && asOf.year >= 2
    ensures r == Ordinal(LastDayOfPreviousMonth(asOf.year, QuarterStart(asOf.month)))
    ensures r < Ordinal(asOf)
  {
    var q := QuarterStart(asOf.month);
    DayBeforeFirstOfMonth(asOf.year, q);
    MonthOrdinalsIncrease(asOf.year, q, asOf.month);
    Ordinal(Date(asOf.year, q, 1)) - 1
  }

  /** December 31 of the year before `year`: the day before its New Year's Day. */
  function YearEnd(year: int): (r: int)
    requires 2 <= year <= 9999
    ensures r == Ordinal(Date(year, 1, 1)) - 1
  {
    NewYearFollowsDecember31(year);
    Ordinal(Date(year - 1, 12, 31))
  }

  /**
   * resolve_anchor_dates: the calendar anchors (a week back, the day before the
   * month and the quarter began, the last two year ends) snapped to trading
   * days; the inception anchor is the inception date itself.
   */
  function ResolveAnchors(asOf: Date, inception: int, days: seq<int>): (a: Anchors)
    requires ValidDate(asOf) && asOf.year >= 3
    ensures a.inception == inception
    ensures a.wow == Snap(Ordinal(asOf) - 7, inception, days)
    ensures a.mtd == Snap(MonthAnchor(asOf), inception, days)
    ensures a.qtd == Snap(QuarterAnchor(asOf), inception, days)
    ensures a.ytd == a.prevYearEnd == Snap(YearEnd(asOf.year), inception, days)
    ensures a.prevYearStart == Snap(YearEnd(asOf.year - 1), inception, days)
  {
    var yearEnd := YearEnd(asOf.year);
    Anchors(
      Snap(Ordinal(asOf) - 7, inception, days),
      Snap(MonthAnchor(asOf), inception, days),
      Snap(QuarterAnchor(asOf), inception, days),
      Snap(yearEnd, inception, days),
      Snap(YearEnd(asOf.year - 1), inception, days),
      Snap(yearEnd, inception, days),
      inception)
  }

  /** A new year starts after the old one ends: the year ends are a year apart and precede January 1. */
  lemma YearEndsPrecedeAsOf(asOf: Date)
    requires ValidDate(asOf) && asOf.year >= 3
    ensures YearEnd(asOf.year - 1) + DaysInYear(asOf.year - 1) == YearEnd(asOf.year)
    ensures YearEnd(asOf.year) < Ordinal(asOf)
  {
    YearStep(asOf.year - 1);
    MonthOrdinalsIncrease(asOf.year, 1, asOf.month);
  }

  /** Every snapped anchor is on or before the date the anchors are resolved for. */
  lemma AnchorsPrecedeAsOf(asOf: Date, inception: int, days: seq<int>)
    requires ValidDate(asOf) && asOf.year >= 3
    ensures var a := ResolveAnchors(asOf, inception, days);
      && (a.wow.Some? ==> a.wow.value < Ordinal(asOf))
      && (a.mtd.Some? ==> a.mtd.value < Ordinal(asOf))
      && (a.qtd.Some? ==> a.qtd.value < Ordinal(asOf))
      && (a.ytd.Some? ==> a.ytd.value < Ordinal(asOf))
      && (a.prevYearStart.Some? ==> a.prevYearStart.value < Ordinal(asOf))
      && (a.prevYearEnd.Some? ==> a.prevYearEnd.value < Ordinal(asOf))
  {
    YearEndsPrecedeAsOf(asOf);
  }

  /** The first of a later month of the same year has a larger ordinal. */
  lemma MonthOrdinalsIncrease(year: int, m1: int, m2: int)
    requires 1 <= year <= 9999 && 1 <= m1 <= m2 <= 12
    ensures ValidDate(Date(year, m1, 1)) && ValidDate(Date(year, m2, 1))
    ensures Ordinal(Date(year, m1, 1)) <= Ordinal(Date(year, m2, 1))
  {
  }

  /** The dates used by the unit tests for the calendar anchors. */
  lemma AnchorExample()
    ensures var days := [739250, 739251, 739253, 739257, 739264];
      var a := ResolveAnchors(Date(2025, 1, 13), 739250, days);
      && a.wow == Some(739257)
      && a.mtd == Some(739251)
      && a.ytd == Some(739251)
      && a.prevYearStart == None
  {
    var days := [739250, 739251, 739253, 739257, 739264];
    assert Ordinal(Date(2025, 1, 13)) == 739264;
    assert MonthAnchor(Date(2025, 1, 13)) == 739251;
    assert YearEnd(2025) == 739251;
    assert YearEnd(2024) == 738885;
    assert days[..4] == [739250, 739251, 739253, 739257];
    assert LastAtMost(days, 739257) == Some(739257);
    assert days[..4][..3] == [739250, 739251, 739253];
    assert days[..4][..3][..2] == [739250, 739251];
    assert LastAtMost(days[..4][..3][..2], 739251) == Some(739251);
    assert LastAtMost(days[..4][..3], 739251) == Some(739251);
    assert LastAtMost(days[..4], 739251) == Some(739251);
    assert LastAtMost(days, 739251) == Some(739251);
  }

  // ---------------------------------------------------------------------
  // Time-weighted return
  // ---------------------------------------------------------------------

  /** A price source: the close of a symbol on a date, when there is one. */
  type PriceSource = (string, int) -> Option<real>

  /** The prices the source has on `date` for the held symbols; symbols without one are absent. */
  function PricesAt(positions: map<string, real>, date: int, price: PriceSource): (m: map<string, real>)
    ensures forall sym :: sym in m <==> sym in positions && price(sym, date).Some?
    ensures forall sym :: sym in m ==> m[sym] == price(sym, date).value
  {
    map sym | sym in positions && price(sym, date).Some? :: price(sym, date).value
  }

  /** Replay up to `date` meets no buy or sell without a symbol. */
  ghost predicate SafeAt(ledger: seq<LedgerEvent>, date: int) {
    TradesHaveSymbols(ledger[..AppliedCount(ledger, date)])
  }

  lemma SafeAtEarlier(ledger: seq<LedgerEvent>, d1: int, d2: int)
    requires d1 <= d2 && SafeAt(ledger, d2)
    ensures SafeAt(ledger, d1)
  {
    AppliedCountMonotone(ledger, d1, d2);
    var n1 := AppliedCount(ledger, d1);
    var n2 := AppliedCount(ledger, d2);
    assert forall i :: 0 <= i < n1 ==> ledger[..n1][i] == ledger[..n2][i];
  }

  lemma SafeEverywhere(ledger: seq<LedgerEvent>, date: int)
    requires TradesHaveSymbols(ledger)
    ensures SafeAt(ledger, date)
  {
    var n := AppliedCount(ledger, date);
    assert forall i :: 0 <= i < n ==> ledger[..n][i] == ledger[i];
  }

  /** The NAV the ledger implies at the end of `date`: replayed holdings valued at that date's prices. */
  ghost function NavAt(ledger: seq<LedgerEvent>, date: int, initialCash: real, price: PriceSource): real
    requires SafeAt(ledger, date)
  {
    var s := ReplayState(ledger, date, initialCash);
    StockValue(s.positions, PricesAt(s.positions, date, price)) + s.cash
  }

  /** The dates of the cash flows. */
  function FlowDates(flows: seq<LedgerEvent>): set<int> {
    set e | e in flows :: e.date
  }

  /** The signed total of the flows dated `date`: deposits count positive, withdrawals negative. */
  function FlowOn(flows: seq<LedgerEvent>, date: int): real {
    if flows == [] then 0.0
    else
      var e := flows[|flows| - 1];
      FlowOn(flows[..|flows| - 1], date) + (if e.date != date then 0.0 else if e.kind == CashIn then e.quantity else -e.quantity)
  }

  /** Flows dated elsewhere contribute nothing to a date's total. */
  lemma {:induction false} FlowOnOtherDate(flows: seq<LedgerEvent>, date: int)
    requires date !in FlowDates(flows)
    ensures FlowOn(flows, date) == 0.0
  {
    if flows != [] {
      var p := flows[..|flows| - 1];
      assert FlowDates(p) <= FlowDates(flows) by {
        forall d | d in FlowDates(p) ensures d in FlowDates(flows) {
          var e :| e in p && e.date == d;
          assert e in flows;
        }
      }
      FlowOnOtherDate(p, date);
      assert flows[|flows| - 1] in flows;
    }
  }

  /** The sub-period boundaries: start, every flow date and end, ascending without repeats. */
  function Boundaries(start: int, end: int, flows: seq<LedgerEvent>): (b: seq<int>)
    ensures |b| >= 1 && |b| == |{start} + FlowDates(flows) + {end}|
    ensures Sorting.Increasing(b)
    ensures forall d :: d in b <==> d == start || d == end || d in FlowDates(flows)
  {
    var b := Sorting.SortedSet({start} + FlowDates(flows) + {end});
    assert start in b;
    b
  }

  /** What one sub-period contributes to the compounded return. */
  datatype Step = Skip | Undefined | Growth(factor: real)

  /** One plus the sub-period return. */
  function GrowthFactor(navStart: real, navEnd: real): real
    requires navStart != 0.0
  {
    1.0 + (navEnd - navStart) / navStart
  }

  /** The growth factor is what turns the start NAV into the end NAV. */
  lemma GrowthFactorScales(navStart: real, navEnd: real)
    requires navStart != 0.0
    ensures GrowthFactor(navStart, navEnd) * navStart == navEnd
  {
  }

  /** A zero start NAV skips the sub-period when the end NAV is zero too, and leaves the return undefined otherwise. */
  function StepOf(navStart: real, navEnd: real): (s: Step)
    ensures s.Skip? <==> navStart == 0.0 && navEnd == 0.0
    ensures s.Undefined? <==> navStart == 0.0 && navEnd != 0.0
    ensures s.Growth? ==> navStart != 0.0
  {
    if navStart == 0.0 then (if navEnd == 0.0 then Skip else Undefined)
    else Growth(GrowthFactor(navStart, navEnd))
  }

  /** The end NAV of a sub-period with the flows booked on its last day taken back out. */
  ghost function AdjustedEndNav(ledger: seq<LedgerEvent>, flows: seq<LedgerEvent>, b: int, initialCash: real, price: PriceSource): (v: real)
    requires SafeAt(ledger, b)
    ensures v == NavAt(ledger, b, initialCash, price) - FlowOn(flows, b)
  {
    if b in FlowDates(flows) then NavAt(ledger, b, initialCash, price) - FlowOn(flows, b)
    else
      FlowOnOtherDate(flows, b);
      NavAt(ledger, b, initialCash, price)
  }

  ghost function SubPeriod(ledger: seq<LedgerEvent>, flows: seq<LedgerEvent>, a: int, b: int, initialCash: real, price: PriceSource): Step
    requires SafeAt(ledger, a) && SafeAt(ledger, b)
  {
    StepOf(NavAt(ledger, a, initialCash, price), AdjustedEndNav(ledger, flows, b, initialCash, price))
  }

  ghost predicate AllSafe(ledger: seq<LedgerEvent>, bounds: seq<int>) {
    forall i :: 0 <= i < |bounds| ==> SafeAt(ledger, bounds[i])
  }

  /** Growth compounded so far: a factor, or broken by an undefined sub-period. */
  datatype Compounded = Factor(value: real) | Broken

  /** Compounding one more sub-period onto the growth so far. */
  function Advance(growth: Compounded, s: Step): (r: Compounded)
    ensures growth.Broken? || s.Undefined? <==> r.Broken?
  {
    match growth
    case Broken => Broken
    case Factor(c) =>
      match s
      case Skip => Factor(c)
      case Undefined => Broken
      case Growth(f) => Factor(c * f)
  }

  /** The growth compounded over `steps` in order, broken once one is undefined. */
  function Compound(steps: seq<Step>): Compounded {
    if steps == [] then Factor(1.0)
    else Advance(Compound(steps[..|steps| - 1]), steps[|steps| - 1])
  }

  /** An undefined sub-period makes the whole compound undefined, whatever follows it. */
  lemma {:induction false} CompoundStaysUndefined(steps: seq<Step>, k: nat)
    requires k <= |steps| && Compound(steps[..k]).Broken?
    ensures Compound(steps).Broken?
    decreases |steps| - k
  {
    if k < |steps| {
      assert steps[..k + 1] == steps[..k] + [steps[k]];
      CompoundSnoc(steps[..k], steps[k]);
      CompoundStaysUndefined(steps, k + 1);
    } else {
      assert steps[..k] == steps;
    }
  }

  lemma WholePrefix(steps: seq<Step>)
    ensures steps[..|steps|] == steps
  {
  }

  lemma CompoundSnoc(steps: seq<Step>, s: Step)
    ensures Compound(steps + [s]) == Advance(Compound(steps), s)
  {
    assert (steps + [s])[..|steps|] == steps;
  }

  /** One more sub-period, told apart by its two NAVs as calculate_twr's loop does. */
  lemma CompoundStep(steps: seq<Step>, i: nat, c: real, navStart: real, navEnd: real)
    requires i < |steps| && steps[i] == StepOf(navStart, navEnd)
    requires Compound(steps[..i]) == Factor(c)
    ensures Compound(steps[..i + 1]) ==
      if navStart == 0.0 then (if navEnd == 0.0 then Factor(c) else Broken)
      else Factor(c * GrowthFactor(navStart, navEnd))
  {
    assert steps[..i + 1] == steps[..i] + [steps[i]];
    CompoundSnoc(steps[..i], steps[i]);
  }

  function Product(factors: seq<real>): real {
    if factors == [] then 1.0 else Product(factors[..|factors| - 1]) * factors[|factors| - 1]
  }

  /** Without skipped or undefined sub-periods the compound is the product of the growth factors. */
  lemma {:induction false} CompoundOfGrowths(steps: seq<Step>, factors: seq<real>)
    requires |steps| == |factors|
    requires forall i :: 0 <= i < |steps| ==> steps[i] == Growth(factors[i])
    ensures Compound(steps) == Factor(Product(factors))
  {
    if steps != [] {
      var n := |steps| - 1;
      CompoundOfGrowths(steps[..n], factors[..n]);
      assert steps[n] == Growth(factors[n]);
    }
  }

  /** The step of every sub-period between consecutive boundaries. */
  ghost function SubPeriods(ledger: seq<LedgerEvent>, flows: seq<LedgerEvent>, bounds: seq<int>, initialCash: real, price: PriceSource): (r: seq<Step>)
    requires |bounds| >= 1 && AllSafe(ledger, bounds)
    ensures |r| == |bounds| - 1
  {
    seq(|bounds| - 1, i requires 0 <= i < |bounds| - 1 => SubPeriod(ledger, flows, bounds[i], bounds[i + 1], initialCash, price))
  }

  function Max(a: int, b: int): int {
    if a < b then b else a
  }

  /** Every boundary is on or before the later of start and end, so replay to it is safe. */
  lemma BoundariesSafe(ledger: seq<LedgerEvent>, start: int, end: int)
    requires SafeAt(ledger, Max(start, end))
    ensures AllSafe(ledger, Boundaries(start, end, CashFlowEventsInPeriod(ledger, start, end)))
  {
    var flows := CashFlowEventsInPeriod(ledger, start, end);
    var b := Boundaries(start, end, flows);
    CashFlowsExactly(ledger, start, end);
    forall i | 0 <= i < |b| ensures SafeAt(ledger, b[i]) {
      if b[i] in FlowDates(flows) {
        var e :| e in flows && e.date == b[i];
      }
      SafeAtEarlier(ledger, b[i], Max(start, end));
    }
  }

  /** The return a compounded growth factor stands for: the factor minus one. */
  function ReturnOf(growth: Compounded): (r: Option<real>)
    ensures r.None? <==> growth.Broken?
    ensures r.Some? ==> r.value + 1.0 == growth.value
  {
    match growth
    case Broken => None
    case Factor(c) => Some(c - 1.0)
  }

  /**
   * The time-weighted return over [start, end]: None for an empty ledger or a
   * start before the first event, otherwise the growth compounded over the
   * sub-periods, minus one.
   */
  ghost function Twr(ledger: seq<LedgerEvent>, start: int, end: int, initialCash: real, price: PriceSource): Option<real>
    requires SafeAt(ledger, Max(start, end))
  {
    if ledger == [] || start < ledger[0].date then None
    else
      var flows := CashFlowEventsInPeriod(ledger, start, end);
      var bounds := Boundaries(start, end, flows);
      BoundariesSafe(ledger, start, end);
      ReturnOf(Compound(SubPeriods(ledger, flows, bounds, initialCash, price)))
  }

  /** No return is defined over an empty ledger or from a start before its first event. */
  lemma TwrBeforeFirstEvent(ledger: seq<LedgerEvent>, start: int, end: int, initialCash: real, price: PriceSource)
    requires SafeAt(ledger, Max(start, end)) && (ledger == [] || start < ledger[0].date)
    ensures Twr(ledger, start, end, initialCash, price) == None
  {
  }

  /** Past the guards, the return is the growth compounded over the sub-periods, minus one. */
  lemma TwrOfSubPeriods(ledger: seq<LedgerEvent>, start: int, end: int, initialCash: real, price: PriceSource, growth: Compounded)
    requires SafeAt(ledger, Max(start, end)) && ledger != [] && start >= ledger[0].date
    requires AllSafe(ledger, Boundaries(start, end, CashFlowEventsInPeriod(ledger, start, end)))
    requires growth == Compound(SubPeriods(ledger, CashFlowEventsInPeriod(ledger, start, end),
                                           Boundaries(start, end, CashFlowEventsInPeriod(ledger, start, end)), initialCash, price))
    ensures Twr(ledger, start, end, initialCash, price) == ReturnOf(growth)
  {
  }

  /** Over a single day the return is zero: there are no sub-periods to compound. */
  lemma TwrSameDay(ledger: seq<LedgerEvent>, day: int, initialCash: real, price: PriceSource)
    requires SafeAt(ledger, day) && ledger != [] && day >= ledger[0].date
    ensures Twr(ledger, day, day, initialCash, price) == Some(0.0)
  {
    CashFlowsEmptyWindow(ledger, day, day);
    var flows := CashFlowEventsInPeriod(ledger, day, day);
    assert FlowDates(flows) == {};
    assert {day} + FlowDates(flows) + {day} == {day};
    BoundariesSafe(ledger, day, day);
    var steps := SubPeriods(ledger, flows, Boundaries(day, day, flows), initialCash, price);
    assert steps == [];
    TwrOfSubPeriods(ledger, day, day, initialCash, price, Factor(1.0));
  }

  /** The return over a single sub-period with the given start and end NAVs. */
  lemma OneStepReturn(navStart: real, navEnd: real)
    ensures navStart != 0.0 ==> ReturnOf(Compound([StepOf(navStart, navEnd)])) == Some((navEnd - navStart) / navStart)
    ensures navStart == 0.0 && navEnd != 0.0 ==> ReturnOf(Compound([StepOf(navStart, navEnd)])) == None
    ensures navStart == 0.0 && navEnd == 0.0 ==> ReturnOf(Compound([StepOf(navStart, navEnd)])) == Some(0.0)
  {
    CompoundSnoc([], StepOf(navStart, navEnd));
  }

  /** Without deposits or withdrawals in (start, end] the boundaries are just start and end. */
  lemma BoundariesWithoutFlows(ledger: seq<LedgerEvent>, start: int, end: int)
    requires start < end
    requires forall e :: e in ledger ==> !IsExternalFlowIn(e, start, end)
    ensures CashFlowEventsInPeriod(ledger, start, end) == []
    ensures Boundaries(start, end, CashFlowEventsInPeriod(ledger, start, end)) == [start, end]
  {
    CashFlowsNone(ledger, start, end);
    var flows := CashFlowEventsInPeriod(ledger, start, end);
    assert FlowDates(flows) == {};
    assert {start} + FlowDates(flows) + {end} == {start, end};
    var bounds := Boundaries(start, end, flows);
    assert bounds[0] in bounds && bounds[1] in bounds;
  }

  /**
   * Without deposits or withdrawals in (start, end] there is one sub-period, so
   * the return is the plain NAV change over it; a zero start NAV makes it
   * undefined unless the end NAV is zero too, when it is zero.
   */
  lemma TwrWithoutFlows(ledger: seq<LedgerEvent>, start: int, end: int, initialCash: real, price: PriceSource)
    requires start < end && SafeAt(ledger, end) && ledger != [] && start >= ledger[0].date
    requires forall e :: e in ledger ==> !IsExternalFlowIn(e, start, end)
    ensures SafeAt(ledger, start)
    ensures NavAt(ledger, start, initialCash, price) != 0.0 ==>
      Twr(ledger, start, end, initialCash, price) ==
        Some((NavAt(ledger, end, initialCash, price) - NavAt(ledger, start, initialCash, price)) / NavAt(ledger, start, initialCash, price))
    ensures NavAt(ledger, start, initialCash, price) == 0.0 && NavAt(ledger, end, initialCash, price) != 0.0 ==>
      Twr(ledger, start, end, initialCash, price) == None
    ensures NavAt(ledger, start, initialCash, price) == 0.0 && NavAt(ledger, end, initialCash, price) == 0.0 ==>
      Twr(ledger, start, end, initialCash, price) == Some(0.0)
  {
    SafeAtEarlier(ledger, start, end);
    BoundariesWithoutFlows(ledger, start, end);
    var flows := CashFlowEventsInPeriod(ledger, start, end);
    BoundariesSafe(ledger, start, end);
    var bounds := Boundaries(start, end, flows);
    var n0 := NavAt(ledger, start, initialCash, price);
    var n1 := NavAt(ledger, end, initialCash, price);
    FlowOnOtherDate(flows, end);
    var steps := SubPeriods(ledger, flows, bounds, initialCash, price);
    assert steps == [StepOf(n0, n1)];
    OneStepReturn(n0, n1);
    TwrOfSubPeriods(ledger, start, end, initialCash, price, Compound(steps));
  }

  /**
   * The body of calculate_twr's loop up to the zero test: the NAV at the start
   * of a sub-period and the NAV at its end with that day's flows taken out.
   */
  method SubPeriodNavs(ledger: seq<LedgerEvent>, flows: seq<LedgerEvent>, cfDates: set<int>, subStart: int, subEnd: int,
                       price: PriceSource, initialCash: real)
    returns (navStart: real, navEnd: real)
    requires SafeAt(ledger, subStart) && SafeAt(ledger, subEnd) && cfDates == FlowDates(flows)
    ensures navStart == NavAt(ledger, subStart, initialCash, price)
    ensures navEnd == AdjustedEndNav(ledger, flows, subEnd, initialCash, price)
  {
    var stateStart := Replay(ledger, subStart, initialCash);
    var snapshotStart, _ := NavAtDate(stateStart, PricesAt(stateStart.positions, subStart, price));
    var stateEnd := Replay(ledger, subEnd, initialCash);
    var snapshotEnd, _ := NavAtDate(stateEnd, PricesAt(stateEnd.positions, subEnd, price));
    navStart := snapshotStart.totalNav;
    navEnd := snapshotEnd.totalNav;
    if subEnd in cfDates {
      navEnd := navEnd - FlowOn(flows, subEnd);
    }
  }

  /**
   * calculate_twr's loop over the sub-periods: the compounded growth, or Broken
   * as soon as a sub-period starts from a zero NAV and ends elsewhere.
   */
  method CompoundSubPeriods(ledger: seq<LedgerEvent>, flows: seq<LedgerEvent>, cfDates: set<int>, bounds: seq<int>,
                            price: PriceSource, initialCash: real)
    returns (growth: Compounded)
    requires |bounds| >= 1 && AllSafe(ledger, bounds) && cfDates == FlowDates(flows)
    ensures growth == Compound(SubPeriods(ledger, flows, bounds, initialCash, price))
  {
    ghost var steps := SubPeriods(ledger, flows, bounds, initialCash, price);
    var compound := 1.0;
    for i := 0 to |bounds| - 1
      invariant Compound(steps[..i]) == Factor(compound)
    {
      var navStart, navEnd := SubPeriodNavs(ledger, flows, cfDates, bounds[i], bounds[i + 1], price, initialCash);
      assert steps[i] == StepOf(navStart, navEnd);
      CompoundStep(steps, i, compound, navStart, navEnd);
      if navStart == 0.0 {
        if navEnd == 0.0 {
          continue;
        }
        CompoundStaysUndefined(steps, i + 1);
        return Broken;
      }
      compound := compound * GrowthFactor(navStart, navEnd);
    }
    WholePrefix(steps);
    return Factor(compound);
  }

  /** calculate_twr. */
  method CalculateTwr(ledger: seq<LedgerEvent>, start: int, end: int, price: PriceSource, initialCash: real)
    returns (twr: Option<real>)
    requires SafeAt(ledger, Max(start, end))
    ensures twr == Twr(ledger, start, end, initialCash, price)
  {
    if ledger == [] || start < ledger[0].date {
      TwrBeforeFirstEvent(ledger, start, end, initialCash, price);
      return None;
    }
    var flows := CashFlowEventsInPeriod(ledger, start, end);
    var cfDates := FlowDates(flows);
    var bounds := Boundaries(start, end, flows);
    BoundariesSafe(ledger, start, end);
    var growth := CompoundSubPeriods(ledger, flows, cfDates, bounds, price, initialCash);
    TwrOfSubPeriods(ledger, start, end, initialCash, price, growth);
    twr := ReturnOf(growth);
  }

  // ---------------------------------------------------------------------
  // Derived metrics
  // ---------------------------------------------------------------------

  /** calculate_stock_price_return: the change of a symbol's close from `start` to `end`, relative to the start. */
  function StockPriceReturn(symbol: string, start: int, end: int, price: PriceSource): (r: Option<real>)
    ensures r.None? <==> price(symbol, start).None? || price(symbol, end).None? || price(symbol, start).value == 0.0
  {
    var p0 := price(symbol, start);
    var p1 := price(symbol, end);
    if p0.None? || p1.None? || p0.value == 0.0 then None
    else Some((p1.value - p0.value) / p0.value)
  }

  /** One plus the price return turns the start close into the end close. */
  lemma StockPriceReturnScales(symbol: string, start: int, end: int, price: PriceSource)
    requires StockPriceReturn(symbol, start, end, price).Some?
    ensures price(symbol, start).value * (1.0 + StockPriceReturn(symbol, start, end, price).value) == price(symbol, end).value
  {
    GrowthFactorScales(price(symbol, start).value, price(symbol, end).value);
  }

  /** _twr_to_pnl: the dollar P&L `nav * twr / (1 + twr)`, unavailable without a return or when `1 + twr` is zero. */
  function TwrToPnl(nav: real, twr: Option<real>): (r: Option<real>)
    ensures r.None? <==> twr.None? || twr.value == -1.0
  {
    if twr.None? then None
    else
      var denom := 1.0 + twr.value;
      if denom == 0.0 then None else Some(nav * twr.value / denom)
  }

  /** The P&L is what the return earned: it and the NAV it ended at are in the ratio `twr : 1 + twr`. */
  lemma PnlScales(nav: real, twr: real)
    requires twr != -1.0
    ensures TwrToPnl(nav, Some(twr)).value * (1.0 + twr) == nav * twr
  {
  }

  /** For a positive NAV and a return above -100%, the P&L has the sign of the return. */
  lemma PnlHasSignOfTwr(nav: real, twr: real)
    requires nav > 0.0 && twr > -1.0
    ensures TwrToPnl(nav, Some(twr)).Some?
    ensures TwrToPnl(nav, Some(twr)).value > 0.0 <==> twr > 0.0
    ensures TwrToPnl(nav, Some(twr)).value == 0.0 <==> twr == 0.0
    ensures TwrToPnl(nav, Some(twr)).value < 0.0 <==> twr < 0.0
  {
    var p := TwrToPnl(nav, Some(twr)).value;
    PnlScales(nav, twr);
    assert p * (1.0 + twr) == nav * twr;
    if twr > 0.0 {
      assert nav * twr > 0.0;
    } else if twr < 0.0 {
      assert nav * twr < 0.0;
    }
  }

  /**
   * Without flows the formula is exact: from the return of a period that
   * started at `navStart` and ends at `nav`, it recovers `nav - navStart`.
   */
  lemma PnlIsNavChange(nav: real, navStart: real)
    requires navStart != 0.0 && nav != 0.0
    ensures TwrToPnl(nav, Some((nav - navStart) / navStart)) == Some(nav - navStart)
  {
    var twr := (nav - navStart) / navStart;
    GrowthFactorScales(navStart, nav);
    assert (1.0 + twr) * navStart == nav;
    assert twr * navStart == nav - navStart;
    PnlScales(nav, twr);
    var p := TwrToPnl(nav, Some(twr)).value;
    assert p * (1.0 + twr) * navStart == nav * twr * navStart;
    assert (p - (nav - navStart)) * nav == 0.0;
    ZeroFactor(p - (nav - navStart), nav);
  }

  lemma ZeroFactor(x: real, y: real)
    requires x * y == 0.0 && y != 0.0
    ensures x == 0.0
  {
    assert x == x * y / y;
  }

  /** The return on net deposits `net`, unavailable unless `net` is positive. */
  function Roi(nav: real, net: real): (r: Option<real>)
    ensures r.None? <==> net <= 0.0
  {
    if net <= 0.0 then None else Some((nav - net) / net)
  }

  /** One plus the ROI turns the net deposits into the NAV. */
  lemma RoiScales(nav: real, net: real)
    requires net > 0.0
    ensures net * (1.0 + Roi(nav, net).value) == nav
  {
    GrowthFactorScales(net, nav);
  }

  /** Deposits minus withdrawals; dividends and trades do not count. */
  function NetDeposits(ledger: seq<LedgerEvent>): real {
    Amount(ledger, CashIn) - Amount(ledger, CashOut)
  }

  /** Appending an event changes the net deposits by its signed amount, and not at all unless it is a deposit or withdrawal. */
  lemma NetDepositsStep(ledger: seq<LedgerEvent>, e: LedgerEvent)
    ensures NetDeposits(ledger + [e]) ==
      NetDeposits(ledger) + (if e.kind == CashIn then e.quantity else if e.kind == CashOut then -e.quantity else 0.0)
  {
    assert (ledger + [e])[..|ledger|] == ledger;
  }

  /** _calculate_deposit_roi. */
  method DepositRoi(ledger: seq<LedgerEvent>, currentNav: real) returns (roi: Option<real>)
    ensures roi == Roi(currentNav, NetDeposits(ledger))
  {
    var net := 0.0;
    for i := 0 to |ledger|
      invariant net == NetDeposits(ledger[..i])
    {
      var e := ledger[i];
      NetDepositsStep(ledger[..i], e);
      assert ledger[..i + 1] == ledger[..i] + [e];
      if e.kind == CashIn {
        net := net + e.quantity;
      } else if e.kind == CashOut {
        net := net - e.quantity;
      }
    }
    assert ledger[..|ledger|] == ledger;
    if net <= 0.0 {
      return None;
    }
    return Some((currentNav - net) / net);
  }

  /** The NAV at the end of last year, backed out of the current NAV with the year-to-date return when it is usable. */
  function PrevYearNav(nav: real, ytd: Option<real>): (r: real)
    ensures ytd.Some? && ytd.value != -1.0 ==> r * (1.0 + ytd.value) == nav
    ensures ytd.None? || ytd.value == -1.0 ==> r == nav
  {
    if ytd.Some? && ytd.value != -1.0 then nav / (1.0 + ytd.value) else nav
  }

  /** A holding's return since purchase, zero when the cost price is zero. */
  function TotalReturn(lastPrice: real, costPrice: real): (r: real)
    ensures costPrice != 0.0 ==> costPrice * (1.0 + r) == lastPrice
    ensures costPrice == 0.0 ==> r == 0.0
  {
    if costPrice != 0.0 then (lastPrice - costPrice) / costPrice else 0.0
  }

  /** Today's P&L as a percentage of yesterday's NAV, zero when that NAV is zero. */
  function DailyPnlPct(nav: real, dailyPnl: real): (r: real)
    ensures nav - dailyPnl != 0.0 ==> r * (nav - dailyPnl) == dailyPnl * 100.0
    ensures nav - dailyPnl == 0.0 ==> r == 0.0
  {
    var prevNav := nav - dailyPnl;
    if prevNav != 0.0 then dailyPnl / prevNav * 100.0 else 0.0
  }

  /** A price return from a resolved anchor to `end`, unavailable without the anchor. */
  function ReturnFrom(symbol: string, anchor: Option<int>, end: int, price: PriceSource): (r: Option<real>)
    ensures r.Some? <==> anchor.Some? && StockPriceReturn(symbol, anchor.value, end, price).Some?
  {
    if anchor.None? then None else StockPriceReturn(symbol, anchor.value, end, price)
  }

  /** The row of one holding: price returns over the periods and its return since purchase. */
  function StockPerformanceOf(pos: PositionRow, a: Anchors, today: int, price: PriceSource): (r: StockPerformance)
    ensures r.symbol == pos.symbol && r.name == pos.name
    ensures r.prevYear.Some? ==> a.prevYearStart.Some? && a.prevYearEnd.Some?
  {
    StockPerformance(
      pos.symbol,
      pos.name,
      ReturnFrom(pos.symbol, a.wow, today, price),
      ReturnFrom(pos.symbol, a.mtd, today, price),
      ReturnFrom(pos.symbol, a.qtd, today, price),
      ReturnFrom(pos.symbol, a.ytd, today, price),
      if a.prevYearStart.Some? && a.prevYearEnd.Some?
      then StockPriceReturn(pos.symbol, a.prevYearStart.value, a.prevYearEnd.value, price)
      else None,
      TotalReturn(pos.lastPrice, pos.costPrice))
  }

  // ---------------------------------------------------------------------
  // calculate_portfolio_performance
  // ---------------------------------------------------------------------

  /** The portfolio's return from an anchor to `end`, unavailable without the anchor. */
  ghost function PeriodTwr(ledger: seq<LedgerEvent>, anchor: Option<int>, end: int, initialCash: real, price: PriceSource): Option<real>
    requires TradesHaveSymbols(ledger)
  {
    if anchor.None? then None
    else
      SafeEverywhere(ledger, Max(anchor.value, end));
      Twr(ledger, anchor.value, end, initialCash, price)
  }

  /** The `_twr` helper: calculate_twr from an anchor, when the anchor resolved. */
  method PeriodReturn(ledger: seq<LedgerEvent>, anchor: Option<int>, end: int, price: PriceSource, initialCash: real)
    returns (r: Option<real>)
    requires TradesHaveSymbols(ledger)
    ensures r == PeriodTwr(ledger, anchor, end, initialCash, price)
  {
    if anchor.None? {
      return None;
    }
    SafeEverywhere(ledger, Max(anchor.value, end));
    r := CalculateTwr(ledger, anchor.value, end, price, initialCash);
  }

  /** The previous calendar year's return: from its start anchor to its end anchor, when both resolved. */
  ghost function PrevYearTwr(ledger: seq<LedgerEvent>, a: Anchors, initialCash: real, price: PriceSource): Option<real>
    requires TradesHaveSymbols(ledger)
  {
    if a.prevYearStart.None? || a.prevYearEnd.None? then None
    else PeriodTwr(ledger, a.prevYearStart, a.prevYearEnd.value, initialCash, price)
  }

  /** The per-position loop of calculate_portfolio_performance. */
  method StockPerformances(positions: seq<PositionRow>, a: Anchors, today: int, price: PriceSource)
    returns (rows: seq<StockPerformance>)
    ensures |rows| == |positions|
    ensures forall i :: 0 <= i < |positions| ==> rows[i] == StockPerformanceOf(positions[i], a, today, price)
  {
    rows := [];
    for i := 0 to |positions|
      invariant |rows| == i
      invariant forall j :: 0 <= j < i ==> rows[j] == StockPerformanceOf(positions[j], a, today, price)
    {
      var pos := positions[i];
      var sPrevYear: Option<real> := None;
      if a.prevYearStart.Some? && a.prevYearEnd.Some? {
        sPrevYear := StockPriceReturn(pos.symbol, a.prevYearStart.value, a.prevYearEnd.value, price);
      }
      var row := StockPerformance(
        pos.symbol,
        pos.name,
        ReturnFrom(pos.symbol, a.wow, today, price),
        ReturnFrom(pos.symbol, a.mtd, today, price),
        ReturnFrom(pos.symbol, a.qtd, today, price),
        ReturnFrom(pos.symbol, a.ytd, today, price),
        sPrevYear,
        TotalReturn(pos.lastPrice, pos.costPrice));
      rows := rows + [row];
    }
  }

  /**
   * calculate_portfolio_performance: the anchors resolved from today and the
   * inception date (the first ledger event, or today for an empty ledger), the
   * portfolio returns over each period, the dollar P&L derived from each
   * return and the broker NAV, the deposit ROI, the per-position rows and the
   * daily P&L percentage.
   */
  method CalculatePortfolioPerformance(ledger: seq<LedgerEvent>, positions: seq<PositionRow>, tradingDays: seq<int>,
                                       totalNav: real, dailyPnl: real, today: Date, price: PriceSource, initialCash: real)
    returns (perf: PortfolioPerformance)
    requires ValidDate(today) && today.year >= 3 && TradesHaveSymbols(ledger)
    ensures perf.asOfDate == Ordinal(today) && perf.nav == totalNav && perf.dailyPnl == dailyPnl
    ensures perf.inceptionDate == if ledger == [] then Ordinal(today) else ledger[0].date
    ensures var a := ResolveAnchors(today, perf.inceptionDate, tradingDays);
      && perf.wow == PeriodTwr(ledger, a.wow, Ordinal(today), initialCash, price)
      && perf.mtd == PeriodTwr(ledger, a.mtd, Ordinal(today), initialCash, price)
      && perf.qtd == PeriodTwr(ledger, a.qtd, Ordinal(today), initialCash, price)
      && perf.ytd == PeriodTwr(ledger, a.ytd, Ordinal(today), initialCash, price)
      && perf.prevYear == PrevYearTwr(ledger, a, initialCash, price)
      && perf.inception == PeriodTwr(ledger, Some(a.inception), Ordinal(today), initialCash, price)
      && |perf.stockPerformance| == |positions|
      && forall i :: 0 <= i < |positions| ==>
           perf.stockPerformance[i] == StockPerformanceOf(positions[i], a, Ordinal(today), price)
    ensures perf.wowPnl == TwrToPnl(totalNav, perf.wow) && perf.mtdPnl == TwrToPnl(totalNav, perf.mtd)
    ensures perf.qtdPnl == TwrToPnl(totalNav, perf.qtd) && perf.ytdPnl == TwrToPnl(totalNav, perf.ytd)
    ensures perf.inceptionPnl == TwrToPnl(totalNav, perf.inception)
    ensures perf.prevYearPnl == TwrToPnl(PrevYearNav(totalNav, perf.ytd), perf.prevYear)
    ensures perf.inceptionRoi == Roi(totalNav, NetDeposits(ledger))
    ensures perf.dailyPnlPct == DailyPnlPct(totalNav, dailyPnl)
  {
    var asOf := Ordinal(today);
    var inceptionDate := if ledger != [] then ledger[0].date else asOf;
    var a := ResolveAnchors(today, inceptionDate, tradingDays);
    var wow := PeriodReturn(ledger, a.wow, asOf, price, initialCash);
    var mtd := PeriodReturn(ledger, a.mtd, asOf, price, initialCash);
    var qtd := PeriodReturn(ledger, a.qtd, asOf, price, initialCash);
    var ytd := PeriodReturn(ledger, a.ytd, asOf, price, initialCash);
    var prevYear: Option<real> := None;
    if a.prevYearStart.Some? && a.prevYearEnd.Some? {
      prevYear := PeriodReturn(ledger, a.prevYearStart, a.prevYearEnd.value, price, initialCash);
    }
    var inception := PeriodReturn(ledger, Some(a.inception), asOf, price, initialCash);
    var prevYearPnl: Option<real> := None;
    if prevYear.Some? {
      prevYearPnl := TwrToPnl(PrevYearNav(totalNav, ytd), prevYear);
    }
    var inceptionRoi := DepositRoi(ledger, totalNav);
    var rows := StockPerformances(positions, a, asOf, price);
    perf := PortfolioPerformance(
      asOf, totalNav, dailyPnl, DailyPnlPct(totalNav, dailyPnl),
      wow, mtd, qtd, ytd, prevYear, inception, inceptionDate, rows,
      TwrToPnl(totalNav, wow), TwrToPnl(totalNav, mtd), TwrToPnl(totalNav, qtd), TwrToPnl(totalNav, ytd),
      prevYearPnl, TwrToPnl(totalNav, inception), inceptionRoi);
  }
}
