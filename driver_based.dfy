/**
 * The driver-based forecaster: rolls revenue and cost of goods sold forward
 * one period at a time and derives working capital, its change against the
 * previous period, operating cash flow and free cash flow.
 *
 * The historical table is a revenue column and, when the table has one, a
 * cost-of-goods-sold column of the same length; the forecast table is a
 * sequence of ForecastRow records, one per period.
 */
module DriverBased {
  import opened Wrappers
  import opened DriverModels
  import Calculator
  import Stats

  datatype HistoricalData = HistoricalData(revenue: seq<real>, cogs: Option<seq<real>>)

  /** A table's columns all have the same length. */
  type History = h: HistoricalData | h.cogs.Some? ==> |h.cogs.value| == |h.revenue|
    witness HistoricalData([], None)

  /** The exceptions the engine raises. */
  datatype EngineError =
    | EmptyHistory                  // the historical table has no row to seed from
    | MissingColumn(column: string) // a column read from an empty forecast table
    | UnknownDriver(name: string)   // a sensitivity driver name that is not recognised
    | EmptySample                   // a reduction over no simulated totals

  /** Cost ratio assumed for the seed period when history has no cost column. */
  const FallbackCogsRatio: real := 0.65
  /** Depreciation is a flat share of revenue, independent of any CapEx block. */
  const DepreciationRate: real := 0.02

  datatype WorkingCapitalFigures = WorkingCapitalFigures(
    accountsReceivable: real, accountsPayable: real, inventory: real,
    netWorkingCapital: real, cccDays: real)

  datatype OperatingFigures = OperatingFigures(
    grossProfit: real, depreciation: real, deltaWorkingCapital: real,
    deltaAr: real, deltaAp: real, deltaInventory: real, operatingCashflow: real)

  datatype FreeFigures = FreeFigures(capex: real, freeCashflow: real)

  datatype ForecastRow = ForecastRow(
    period: int, revenue: real, cogs: real,
    accountsReceivable: real, accountsPayable: real, inventory: real,
    netWorkingCapital: real, cccDays: real,
    grossProfit: real, depreciation: real, deltaWorkingCapital: real,
    deltaAr: real, deltaAp: real, deltaInventory: real, operatingCashflow: real,
    capex: real, freeCashflow: real)

  /**
   * Working capital at one revenue/COGS level; the same formulas as the
   * calculator's, inlined. NWC is AR + inventory - AP, the cycle is
   * DSO + DIO - DPO, and a component with a zero day count is zero.
   */
  function ForecastWorkingCapital(d: Drivers, revenue: real, cogs: real): (w: WorkingCapitalFigures)
    ensures w.netWorkingCapital == w.accountsReceivable + w.inventory - w.accountsPayable
    ensures w.cccDays == d.workingCapital.CccDays()
    ensures d.workingCapital.dsoDays == 0.0 ==> w.accountsReceivable == 0.0
    ensures d.workingCapital.dpoDays == 0.0 ==> w.accountsPayable == 0.0
    ensures d.workingCapital.dioDays == 0.0 ==> w.inventory == 0.0
  {
    var wc := d.workingCapital;
    var ar := (revenue / 365.0) * wc.dsoDays;
    var ap := (cogs / 365.0) * wc.dpoDays;
    var inventory := (cogs / 365.0) * wc.dioDays;
    WorkingCapitalFigures(ar, ap, inventory, ar + inventory - ap, wc.CccDays())
  }

  /** The forecaster's working capital agrees with the calculator's formulas and the NWC identity. */
  lemma WorkingCapitalMatchesCalculator(d: Drivers, revenue: real, cogs: real)
    ensures var w := ForecastWorkingCapital(d, revenue, cogs);
      && w.accountsReceivable == Calculator.AccountsReceivable(revenue, d.workingCapital.dsoDays)
      && w.accountsPayable == Calculator.AccountsPayable(cogs, d.workingCapital.dpoDays)
      && w.inventory == Calculator.Inventory(cogs, d.workingCapital.dioDays)
      && w.netWorkingCapital == Calculator.NetWorkingCapital(w.accountsReceivable, w.inventory, w.accountsPayable)
      && w.cccDays == Calculator.Ccc(d.workingCapital.dsoDays, d.workingCapital.dioDays, d.workingCapital.dpoDays)
  {
  }

  function Nwc(d: Drivers, revenue: real, cogs: real): real {
    ForecastWorkingCapital(d, revenue, cogs).netWorkingCapital
  }

  /** Operating cash flow by the indirect method, against the previous period's working capital. */
  function ForecastOperatingCashflow(d: Drivers, revenue: real, previousRevenue: real,
                                     cogs: real, previousCogs: real, depreciation: real := 0.0): OperatingFigures
  {
    var current := ForecastWorkingCapital(d, revenue, cogs);
    var previous := ForecastWorkingCapital(d, previousRevenue, previousCogs);
    var deltaWc := current.netWorkingCapital - previous.netWorkingCapital;
    var grossProfit := revenue * (d.revenue.grossMarginPct / 100.0);
    OperatingFigures(grossProfit, depreciation, deltaWc,
                     current.accountsReceivable - previous.accountsReceivable,
                     current.accountsPayable - previous.accountsPayable,
                     current.inventory - previous.inventory,
                     grossProfit + depreciation - deltaWc)
  }

  /** Free cash flow: operating cash flow less CapEx, which is zero without a CapEx block. */
  function ForecastFreeCashflow(d: Drivers, operatingCf: real, revenue: real): FreeFigures
  {
    var capex := if d.capex.Some? then revenue * (d.capex.value.capexPctOfRevenue / 100.0) else 0.0;
    FreeFigures(capex, operatingCf - capex)
  }

  /**
   * The change in working capital is the sum of the component changes, and
   * operating cash flow is gross profit plus depreciation less that change.
   */
  lemma OperatingCashflowIdentities(d: Drivers, revenue: real, previousRevenue: real,
                                    cogs: real, previousCogs: real, depreciation: real)
    ensures var o := ForecastOperatingCashflow(d, revenue, previousRevenue, cogs, previousCogs, depreciation);
      && o.deltaWorkingCapital == Nwc(d, revenue, cogs) - Nwc(d, previousRevenue, previousCogs)
      && o.deltaWorkingCapital == o.deltaAr + o.deltaInventory - o.deltaAp
      && o.grossProfit == revenue * (d.revenue.grossMarginPct / 100.0)
      && o.depreciation == depreciation
      && o.operatingCashflow == o.grossProfit + depreciation - o.deltaWorkingCapital
  {
  }

  /** Free cash flow is operating cash flow less CapEx; without a CapEx block nothing is subtracted. */
  lemma FreeCashflowIdentities(d: Drivers, operatingCf: real, revenue: real)
    ensures var f := ForecastFreeCashflow(d, operatingCf, revenue);
      && (d.capex.None? ==> f.capex == 0.0 && f.freeCashflow == operatingCf)
      && (d.capex.Some? ==> f.capex == revenue * (d.capex.value.capexPctOfRevenue / 100.0))
      && f.freeCashflow + f.capex == operatingCf
  {
  }

  /** Monthly growth from the annual rate: the linear approximation 1 + rate/12. */
  function GrowthMultiplier(d: Drivers): real {
    1.0 + (d.revenue.revenueGrowthPct / 100.0) / 12.0
  }

  /** The seasonality coefficient of 0-based period i, by the period counter, not the calendar. */
  function SeasonalFactor(d: Drivers, i: nat): real {
    match d.revenue.seasonalityFactors
    case None => 1.0
    case Some(s) => s[i % 12]
  }

  /** Period i's revenue: the previous revenue grown by the monthly multiplier, then scaled by the seasonal factor. */
  function NextRevenue(d: Drivers, i: nat, lastRevenue: real): real {
    var grown := lastRevenue * GrowthMultiplier(d);
    if d.revenue.seasonalityFactors.Some? then grown * d.revenue.seasonalityFactors.value[i % 12] else grown
  }

  /** Period i's COGS: taken from the grown revenue before seasonality is applied. */
  function NextCogs(d: Drivers, lastRevenue: real): real {
    var grown := lastRevenue * GrowthMultiplier(d);
    grown * (1.0 - d.revenue.grossMarginPct / 100.0)
  }

  /** The row of 0-based period i, given the previous period's revenue and COGS. */
  function Step(d: Drivers, i: nat, lastRevenue: real, lastCogs: real): ForecastRow {
    RowOf(d, i, NextRevenue(d, i, lastRevenue), NextCogs(d, lastRevenue), lastRevenue, lastCogs)
  }

  /** The row of period i once its revenue and COGS are known, against the previous period's. */
  function RowOf(d: Drivers, i: nat, revenue: real, cogs: real, lastRevenue: real, lastCogs: real): ForecastRow
  {
    var wc := ForecastWorkingCapital(d, revenue, cogs);
    var ocf := ForecastOperatingCashflow(d, revenue, lastRevenue, cogs, lastCogs, revenue * DepreciationRate);
    var fcf := ForecastFreeCashflow(d, ocf.operatingCashflow, revenue);
    ForecastRow(i + 1, revenue, cogs,
                wc.accountsReceivable, wc.accountsPayable, wc.inventory, wc.netWorkingCapital, wc.cccDays,
                ocf.grossProfit, ocf.depreciation, ocf.deltaWorkingCapital,
                ocf.deltaAr, ocf.deltaAp, ocf.deltaInventory, ocf.operatingCashflow,
                fcf.capex, fcf.freeCashflow)
  }

  /** Revenue grows by the multiplier and the seasonal factor; COGS comes from the revenue before seasonality. */
  lemma NextRevenueAndCogs(d: Drivers, i: nat, lastRevenue: real)
    ensures NextRevenue(d, i, lastRevenue) == lastRevenue * GrowthMultiplier(d) * SeasonalFactor(d, i)
    ensures NextCogs(d, lastRevenue) == lastRevenue * GrowthMultiplier(d) * (1.0 - d.revenue.grossMarginPct / 100.0)
  {
    var grown := lastRevenue * GrowthMultiplier(d);
    if d.revenue.seasonalityFactors.None? {
      assert grown == grown * 1.0;
    }
  }

  /** A step's revenue in terms of the previous period's revenue. */
  lemma StepRevenue(d: Drivers, i: nat, lastRevenue: real, lastCogs: real)
    ensures Step(d, i, lastRevenue, lastCogs).revenue == lastRevenue * GrowthMultiplier(d) * SeasonalFactor(d, i)
  {
    RowIdentities(d, i, NextRevenue(d, i, lastRevenue), NextCogs(d, lastRevenue), lastRevenue, lastCogs);
    NextRevenueAndCogs(d, i, lastRevenue);
  }

  /** A step's COGS in terms of the previous period's revenue. */
  lemma StepCogs(d: Drivers, i: nat, lastRevenue: real, lastCogs: real)
    ensures Step(d, i, lastRevenue, lastCogs).cogs
            == lastRevenue * GrowthMultiplier(d) * (1.0 - d.revenue.grossMarginPct / 100.0)
  {
    RowIdentities(d, i, NextRevenue(d, i, lastRevenue), NextCogs(d, lastRevenue), lastRevenue, lastCogs);
    NextRevenueAndCogs(d, i, lastRevenue);
  }

  /**
   * Every row keeps the working-capital and cash-flow identities: NWC is
   * AR + inventory - AP at its own revenue and COGS, its change is against
   * the previous period's NWC and is the sum of the component changes,
   * operating cash flow is gross profit plus depreciation less that change,
   * and free cash flow subtracts CapEx.
   */
  lemma RowIdentities(d: Drivers, i: nat, revenue: real, cogs: real, lastRevenue: real, lastCogs: real)
    ensures var r := RowOf(d, i, revenue, cogs, lastRevenue, lastCogs);
      r.period == i + 1
      && r.revenue == revenue
      && r.cogs == cogs
      && r.netWorkingCapital == Nwc(d, revenue, cogs)
      && r.netWorkingCapital == r.accountsReceivable + r.inventory - r.accountsPayable
      && r.deltaWorkingCapital == r.netWorkingCapital - Nwc(d, lastRevenue, lastCogs)
      && r.deltaWorkingCapital == r.deltaAr + r.deltaInventory - r.deltaAp
      && r.cccDays == d.workingCapital.CccDays()
      && r.grossProfit == revenue * (d.revenue.grossMarginPct / 100.0)
      && r.depreciation == revenue * DepreciationRate
      && r.operatingCashflow == r.grossProfit + r.depreciation - r.deltaWorkingCapital
      && r.freeCashflow == r.operatingCashflow - r.capex
      && (d.capex.None? ==> r.capex == 0.0)
      && (d.capex.Some? ==> r.capex == revenue * (d.capex.value.capexPctOfRevenue / 100.0))
  {
    OperatingCashflowIdentities(d, revenue, lastRevenue, cogs, lastCogs, revenue * DepreciationRate);
    FreeCashflowIdentities(d, RowOf(d, i, revenue, cogs, lastRevenue, lastCogs).operatingCashflow, revenue);
  }

  /** The rows of periods i .. n-1, each one seeded by the row before it. */
  function Rows(d: Drivers, i: nat, n: nat, lastRevenue: real, lastCogs: real): (rows: seq<ForecastRow>)
    requires i <= n
    ensures |rows| == n - i
    ensures forall k :: 0 <= k < |rows| ==> rows[k].period == i + k + 1
    decreases n - i
  {
    if i == n then []
    else
      var row := Step(d, i, lastRevenue, lastCogs);
      [row] + Rows(d, i + 1, n, row.revenue, row.cogs)
  }

  /** The first of the rows from period i is period i's step; the rest are seeded by it. */
  lemma RowsUnfold(d: Drivers, i: nat, n: nat, lastRevenue: real, lastCogs: real)
    requires i < n
    ensures var row := Step(d, i, lastRevenue, lastCogs);
      Rows(d, i, n, lastRevenue, lastCogs) == [row] + Rows(d, i + 1, n, row.revenue, row.cogs)
  {
  }

  /** A negative period count projects nothing, like an empty range. */
  function PeriodCount(periods: int): nat {
    if periods < 0 then 0 else periods
  }

  /** The COGS of the seed period: the history's own, else the fallback share of revenue. */
  function SeedCogs(history: History): real
    requires |history.revenue| > 0
  {
    match history.cogs
    case Some(c) => c[|c| - 1]
    case None => history.revenue[|history.revenue| - 1] * FallbackCogsRatio
  }

  function SeedRevenue(history: History): real
    requires |history.revenue| > 0
  {
    history.revenue[|history.revenue| - 1]
  }

  /** The forecast table, seeded from the last historical row. */
  function Forecast(d: Drivers, history: History, periods: int): (r: Result<seq<ForecastRow>, EngineError>)
    ensures r.Err? <==> |history.revenue| == 0
    ensures r.Err? ==> r.error == EmptyHistory
    ensures r.Ok? ==> |r.value| == PeriodCount(periods)
    ensures r.Ok? ==> forall k :: 0 <= k < |r.value| ==> r.value[k].period == k + 1
  {
    if |history.revenue| == 0 then Err(EmptyHistory)
    else Ok(Rows(d, 0, PeriodCount(periods), SeedRevenue(history), SeedCogs(history)))
  }

  /** The k-th of the rows from period i is the step of period i + k, seeded by the row before it. */
  lemma {:induction false} RowsAt(d: Drivers, i: nat, n: nat, lastRevenue: real, lastCogs: real, k: nat)
    requires i <= n && k < n - i
    ensures var rows := Rows(d, i, n, lastRevenue, lastCogs);
      rows[k] == Step(d, i + k, if k == 0 then lastRevenue else rows[k - 1].revenue,
                                if k == 0 then lastCogs else rows[k - 1].cogs)
    decreases k
  {
    var rows := Rows(d, i, n, lastRevenue, lastCogs);
    var row := Step(d, i, lastRevenue, lastCogs);
    var rest := Rows(d, i + 1, n, row.revenue, row.cogs);
    RowsUnfold(d, i, n, lastRevenue, lastCogs);
    if k > 0 {
      RowsAt(d, i + 1, n, row.revenue, row.cogs, k - 1);
      assert rows[k] == rest[k - 1];
      if k > 1 {
        assert rows[k - 1] == rest[k - 2];
      } else {
        assert rows[0] == row;
      }
    }
  }

  /** The first forecast row grows the last historical row; every later row grows the row before it. */
  lemma ForecastRecurrence(d: Drivers, history: History, periods: int, k: nat)
    requires |history.revenue| > 0
    requires k < PeriodCount(periods)
    ensures var rows := Forecast(d, history, periods).value;
      rows[k] == Step(d, k, PreviousRevenue(history, rows, k), PreviousCogs(history, rows, k))
  {
    RowsAt(d, 0, PeriodCount(periods), SeedRevenue(history), SeedCogs(history), k);
  }

  /** Revenue and COGS of the row before period k: the seed for period 0. */
  function PreviousRevenue(history: History, rows: seq<ForecastRow>, k: nat): real
    requires |history.revenue| > 0 && k < |rows|
  {
    if k == 0 then SeedRevenue(history) else rows[k - 1].revenue
  }

  function PreviousCogs(history: History, rows: seq<ForecastRow>, k: nat): real
    requires |history.revenue| > 0 && k < |rows|
  {
    if k == 0 then SeedCogs(history) else rows[k - 1].cogs
  }

  /** Each row's revenue is period k's step from the previous revenue (see NextRevenueAndCogs). */
  lemma ForecastRevenue(d: Drivers, history: History, periods: int, k: nat)
    requires |history.revenue| > 0
    requires k < PeriodCount(periods)
    ensures var rows := Forecast(d, history, periods).value;
      rows[k].revenue == NextRevenue(d, k, PreviousRevenue(history, rows, k))
  {
    ForecastRecurrence(d, history, periods, k);
  }

  /** Each row's COGS is taken from the previous revenue grown, before seasonality (see NextRevenueAndCogs). */
  lemma ForecastCogs(d: Drivers, history: History, periods: int, k: nat)
    requires |history.revenue| > 0
    requires k < PeriodCount(periods)
    ensures var rows := Forecast(d, history, periods).value;
      rows[k].cogs == NextCogs(d, PreviousRevenue(history, rows, k))
  {
    ForecastRecurrence(d, history, periods, k);
  }

  /** Every forecast row satisfies the working-capital and cash-flow identities. */
  lemma ForecastRowIdentities(d: Drivers, history: History, periods: int, k: nat)
    requires |history.revenue| > 0
    requires k < PeriodCount(periods)
    ensures var rows := Forecast(d, history, periods).value;
      var row := rows[k];
      && row.period == k + 1
      && row.netWorkingCapital == row.accountsReceivable + row.inventory - row.accountsPayable
      && row.deltaWorkingCapital == row.netWorkingCapital
                                    - Nwc(d, PreviousRevenue(history, rows, k), PreviousCogs(history, rows, k))
      && row.deltaWorkingCapital == row.deltaAr + row.deltaInventory - row.deltaAp
      && row.cccDays == d.workingCapital.CccDays()
      && row.operatingCashflow == row.grossProfit + row.depreciation - row.deltaWorkingCapital
      && row.depreciation == row.revenue * DepreciationRate
      && row.grossProfit == row.revenue * (d.revenue.grossMarginPct / 100.0)
      && row.freeCashflow == row.operatingCashflow - row.capex
      && (d.capex.None? ==> row.capex == 0.0)
      && (d.capex.Some? ==> row.capex == row.revenue * (d.capex.value.capexPctOfRevenue / 100.0))
  {
    var rows := Forecast(d, history, periods).value;
    var previousRevenue, previousCogs := PreviousRevenue(history, rows, k), PreviousCogs(history, rows, k);
    ForecastRowMargins(d, history, periods, k);
    ForecastRecurrence(d, history, periods, k);
    assert rows[k] == Step(d, k, previousRevenue, previousCogs);
    RowIdentities(d, k, NextRevenue(d, k, previousRevenue), NextCogs(d, previousRevenue), previousRevenue, previousCogs);
  }

  /** Every forecast row's gross profit and CapEx are its margin and its CapEx share of its own revenue. */
  lemma ForecastRowMargins(d: Drivers, history: History, periods: int, k: nat)
    requires |history.revenue| > 0
    requires k < PeriodCount(periods)
    ensures var row := Forecast(d, history, periods).value[k];
      && row.grossProfit == row.revenue * (d.revenue.grossMarginPct / 100.0)
      && (d.capex.Some? ==> row.capex == row.revenue * (d.capex.value.capexPctOfRevenue / 100.0))
  {
    var rows := Forecast(d, history, periods).value;
    var previousRevenue, previousCogs := PreviousRevenue(history, rows, k), PreviousCogs(history, rows, k);
    ForecastRecurrence(d, history, periods, k);
    StepMargins(d, k, previousRevenue, previousCogs);
  }

  /** A step's gross profit and CapEx, stated on the step's own revenue. */
  lemma StepMargins(d: Drivers, i: nat, lastRevenue: real, lastCogs: real)
    ensures var row := Step(d, i, lastRevenue, lastCogs);
      && row.grossProfit == row.revenue * (d.revenue.grossMarginPct / 100.0)
      && (d.capex.Some? ==> row.capex == row.revenue * (d.capex.value.capexPctOfRevenue / 100.0))
  {
    var revenue, cogs := NextRevenue(d, i, lastRevenue), NextCogs(d, lastRevenue);
    RowIdentities(d, i, revenue, cogs, lastRevenue, lastCogs);
  }

  function Pow(x: real, n: nat): real {
    if n == 0 then 1.0 else Pow(x, n - 1) * x
  }

  /**
   * Without seasonality each period's revenue is the previous one (the last
   * historical revenue for the first) times the growth multiplier, so by
   * Compounding the revenue column is geometric.
   */
  lemma GrowthOnly(d: Drivers, history: History, periods: int, k: nat)
    requires |history.revenue| > 0
    requires d.revenue.seasonalityFactors.None?
    requires k < PeriodCount(periods)
    ensures var rows := Forecast(d, history, periods).value;
      rows[k].revenue == PreviousRevenue(history, rows, k) * GrowthMultiplier(d)
  {
    ForecastRevenue(d, history, periods, k);
    UnseasonedRevenue(d, k, PreviousRevenue(history, Forecast(d, history, periods).value, k));
  }

  /** Without seasonality a period's revenue is the previous one times the growth multiplier. */
  lemma UnseasonedRevenue(d: Drivers, i: nat, lastRevenue: real)
    requires d.revenue.seasonalityFactors.None?
    ensures NextRevenue(d, i, lastRevenue) == lastRevenue * GrowthMultiplier(d)
  {
  }

  /** Rows whose every revenue is the one before it (the seed before the first) times g compound geometrically. */
  lemma {:induction false} Compounding(rows: seq<ForecastRow>, seed: real, g: real, k: nat)
    requires k < |rows|
    requires rows[0].revenue == seed * g
    requires forall j :: 0 <= j < |rows| - 1 ==> rows[j + 1].revenue == rows[j].revenue * g
    ensures rows[k].revenue == seed * Pow(g, k + 1)
  {
    if k == 0 {
      assert Pow(g, 1) == 1.0 * g;
    } else {
      Compounding(rows, seed, g, k - 1);
      assert rows[k].revenue == (seed * Pow(g, k)) * g;
      assert (seed * Pow(g, k)) * g == seed * (Pow(g, k) * g);
    }
  }

  /** With zero growth and no seasonality every projected revenue equals the last historical one. */
  lemma {:induction false} FlatRevenue(d: Drivers, history: History, periods: int, k: nat)
    requires |history.revenue| > 0
    requires d.revenue.seasonalityFactors.None? && d.revenue.revenueGrowthPct == 0.0
    requires k < PeriodCount(periods)
    ensures Forecast(d, history, periods).value[k].revenue == SeedRevenue(history)
  {
    GrowthOnly(d, history, periods, k);
    assert GrowthMultiplier(d) == 1.0;
    if k > 0 {
      FlatRevenue(d, history, periods, k - 1);
    }
  }

  /** The forecast table's columns that downstream code reads. */
  datatype ColumnName = RevenueColumn | FreeCashflowColumn | OperatingCashflowColumn
                      | CccDaysColumn | DeltaWorkingCapitalColumn

  function ColumnLabel(c: ColumnName): string {
    match c
    case RevenueColumn => "revenue"
    case FreeCashflowColumn => "free_cashflow"
    case OperatingCashflowColumn => "operating_cashflow"
    case CccDaysColumn => "ccc_days"
    case DeltaWorkingCapitalColumn => "delta_working_capital"
  }

  function Field(row: ForecastRow, c: ColumnName): real {
    match c
    case RevenueColumn => row.revenue
    case FreeCashflowColumn => row.freeCashflow
    case OperatingCashflowColumn => row.operatingCashflow
    case CccDaysColumn => row.cccDays
    case DeltaWorkingCapitalColumn => row.deltaWorkingCapital
  }

  /** One column of the forecast table. */
  function Column(rows: seq<ForecastRow>, c: ColumnName): (col: seq<real>)
    ensures |col| == |rows|
    ensures forall k :: 0 <= k < |rows| ==> col[k] == Field(rows[k], c)
  {
    if |rows| == 0 then [] else [Field(rows[0], c)] + Column(rows[1..], c)
  }

  /**
   * The sum of a column. A table built from no rows has no columns at all,
   * so reading one fails with a missing-column error.
   */
  function ColumnSum(rows: seq<ForecastRow>, c: ColumnName): (r: Result<real, EngineError>)
    ensures r.Err? <==> |rows| == 0
    ensures r.Err? ==> r.error == MissingColumn(ColumnLabel(c))
  {
    if |rows| == 0 then Err(MissingColumn(ColumnLabel(c))) else Ok(Stats.Sum(Column(rows, c)))
  }

  /** The mean of a column, with the same missing-column failure. */
  function ColumnMean(rows: seq<ForecastRow>, c: ColumnName): (r: Result<real, EngineError>)
    ensures r.Err? <==> |rows| == 0
    ensures r.Err? ==> r.error == MissingColumn(ColumnLabel(c))
  {
    if |rows| == 0 then Err(MissingColumn(ColumnLabel(c))) else Ok(Stats.Mean(Column(rows, c)))
  }

  /** The working-capital changes telescope: their sum is the last period's NWC less the seed's. */
  lemma {:induction false} RowsTelescope(d: Drivers, i: nat, n: nat, lastRevenue: real, lastCogs: real)
    requires i < n
    ensures var rows := Rows(d, i, n, lastRevenue, lastCogs);
      Stats.Sum(Column(rows, DeltaWorkingCapitalColumn))
      == rows[|rows| - 1].netWorkingCapital - Nwc(d, lastRevenue, lastCogs)
    decreases n - i
  {
    var rows := Rows(d, i, n, lastRevenue, lastCogs);
    var row := Step(d, i, lastRevenue, lastCogs);
    var rest := Rows(d, i + 1, n, row.revenue, row.cogs);
    RowsUnfold(d, i, n, lastRevenue, lastCogs);
    RowIdentities(d, i, NextRevenue(d, i, lastRevenue), NextCogs(d, lastRevenue), lastRevenue, lastCogs);
    assert rows[1..] == rest;
    if i + 1 < n {
      RowsTelescope(d, i + 1, n, row.revenue, row.cogs);
      assert rows[|rows| - 1] == rest[|rest| - 1];
    }
  }

  /** Over the whole forecast, the working-capital changes sum to the final NWC less the seed period's. */
  lemma ForecastTelescope(d: Drivers, history: History, periods: int)
    requires |history.revenue| > 0 && periods > 0
    ensures var rows := Forecast(d, history, periods).value;
      ColumnSum(rows, DeltaWorkingCapitalColumn)
      == Ok(rows[|rows| - 1].netWorkingCapital - Nwc(d, SeedRevenue(history), SeedCogs(history)))
  {
    var rows := Rows(d, 0, PeriodCount(periods), SeedRevenue(history), SeedCogs(history));
    assert Forecast(d, history, periods) == Ok(rows);
    RowsTelescope(d, 0, PeriodCount(periods), SeedRevenue(history), SeedCogs(history));
    assert ColumnSum(rows, DeltaWorkingCapitalColumn) == Ok(Stats.Sum(Column(rows, DeltaWorkingCapitalColumn)));
  }

  /** A forecast with no periods has no free-cash-flow column to sum. */
  lemma NoPeriodsNoColumn(d: Drivers, history: History, periods: int)
    requires |history.revenue| > 0 && periods <= 0
    ensures ColumnSum(Forecast(d, history, periods).value, FreeCashflowColumn) == Err(MissingColumn("free_cashflow"))
  {
  }

  /**
   * One period from revenues 1000, 1100, 1200 without a COGS column, DSO 45,
   * DPO 30, DIO 60, 10% growth and a 35% margin: revenue 1210, COGS 786.5 and
   * free cash flow 447.7 less the 645/365 growth in working capital.
   */
  lemma GoldenForecast()
    ensures var d := Drivers(WorkingCapital(45.0, 30.0, 60.0), Revenue(10.0, 35.0, None), None, None, None);
      var r := Forecast(d, HistoricalData([1000.0, 1100.0, 1200.0], None), 1);
      && r.Ok? && |r.value| == 1
      && r.value[0].revenue == 1210.0
      && r.value[0].cogs == 786.5
      && r.value[0].deltaWorkingCapital == 645.0 / 365.0
      && r.value[0].freeCashflow == 447.7 - 645.0 / 365.0
  {
    var d := Drivers(WorkingCapital(45.0, 30.0, 60.0), Revenue(10.0, 35.0, None), None, None, None);
    var h: History := HistoricalData([1000.0, 1100.0, 1200.0], None);
    assert SeedRevenue(h) == 1200.0 && SeedCogs(h) == 780.0;
    RowsUnfold(d, 0, 1, 1200.0, 780.0);
    NextRevenueAndCogs(d, 0, 1200.0);
    RowIdentities(d, 0, NextRevenue(d, 0, 1200.0), NextCogs(d, 1200.0), 1200.0, 780.0);
  }

  /** A single historical revenue of 1000 with no growth, margin, seasonality or CapEx projects 1000. */
  lemma FlatSeedExample(wc: WorkingCapital)
    ensures var d := Drivers(wc, Revenue(0.0, 0.0, None), None, None, None);
      var r := Forecast(d, HistoricalData([1000.0], None), 1);
      r.Ok? && r.value[0].revenue == 1000.0
  {
    var d := Drivers(wc, Revenue(0.0, 0.0, None), None, None, None);
    FlatRevenue(d, HistoricalData([1000.0], None), 1, 0);
  }

  /** One pass of the forecast loop: grow, cost, apply seasonality, then working capital and cash flows. */
  method ProjectPeriod(d: Drivers, i: nat, lastRevenue: real, lastCogs: real) returns (row: ForecastRow)
    ensures row == Step(d, i, lastRevenue, lastCogs)
  {
    var growth := GrowthMultiplier(d);
    var revenue := lastRevenue * growth;
    var cogs := revenue * (1.0 - d.revenue.grossMarginPct / 100.0);
    revenue := if d.revenue.seasonalityFactors.Some? then revenue * d.revenue.seasonalityFactors.value[i % 12] else revenue;
    assert revenue == NextRevenue(d, i, lastRevenue) && cogs == NextCogs(d, lastRevenue);
    row := BuildRow(d, i, revenue, cogs, lastRevenue, lastCogs);
  }

  /** The rest of the pass: working capital and cash flows at the period's revenue and COGS. */
  method BuildRow(d: Drivers, i: nat, revenue: real, cogs: real, lastRevenue: real, lastCogs: real)
    returns (row: ForecastRow)
    ensures row == RowOf(d, i, revenue, cogs, lastRevenue, lastCogs)
  {
    var wc := ForecastWorkingCapital(d, revenue, cogs);
    var ocf := ForecastOperatingCashflow(d, revenue, lastRevenue, cogs, lastCogs, revenue * DepreciationRate);
    var fcf := ForecastFreeCashflow(d, ocf.operatingCashflow, revenue);
    row := ForecastRow(i + 1, revenue, cogs,
                       wc.accountsReceivable, wc.accountsPayable, wc.inventory,
                       wc.netWorkingCapital, wc.cccDays,
                       ocf.grossProfit, ocf.depreciation, ocf.deltaWorkingCapital,
                       ocf.deltaAr, ocf.deltaAp, ocf.deltaInventory, ocf.operatingCashflow,
                       fcf.capex, fcf.freeCashflow);
  }

  /** The forecast engine over one driver object, which it only reads. */
  class DriverBasedForecaster {
    const drivers: ForecastDrivers

    constructor (drivers: ForecastDrivers)
      ensures this.drivers == drivers
    {
      this.drivers := drivers;
    }

    /** Rolls the drivers forward over `periods` periods from the last historical row. */
    method GenerateForecast(history: History, periods: int := 12)
      returns (r: Result<seq<ForecastRow>, EngineError>)
      ensures r == Forecast(drivers.Value(), history, periods)
    {
      if |history.revenue| == 0 {
        return Err(EmptyHistory);
      }
      var d := drivers.Value();
      var lastRevenue := history.revenue[|history.revenue| - 1];
      var lastCogs := if history.cogs.Some? then history.cogs.value[|history.cogs.value| - 1]
                      else lastRevenue * FallbackCogsRatio;
      ghost var seedRevenue, seedCogs := lastRevenue, lastCogs;
      var n := PeriodCount(periods);

      var forecasts: seq<ForecastRow> := [];
      for i := 0 to n
        invariant forecasts + Rows(d, i, n, lastRevenue, lastCogs) == Rows(d, 0, n, seedRevenue, seedCogs)
      {
        var row := ProjectPeriod(d, i, lastRevenue, lastCogs);
        RowsUnfold(d, i, n, lastRevenue, lastCogs);
        assert (forecasts + [row]) + Rows(d, i + 1, n, row.revenue, row.cogs)
            == forecasts + ([row] + Rows(d, i + 1, n, row.revenue, row.cogs));
        forecasts := forecasts + [row];
        lastRevenue, lastCogs := row.revenue, row.cogs;
      }
      assert Rows(d, n, n, lastRevenue, lastCogs) == [];
      assert forecasts == Rows(d, 0, n, seedRevenue, seedCogs);
      assert d == drivers.Value() && seedRevenue == SeedRevenue(history) && seedCogs == SeedCogs(history);
      return Ok(forecasts);
    }
  }
}
