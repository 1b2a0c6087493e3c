/**
 * Financial driver records: working capital (DSO/DPO/DIO), revenue
 * (growth, margin, seasonality), optional CapEx and Financing blocks.
 *
 * Two views of the same records:
 *  - datatypes (WorkingCapital, Revenue, CapEx, Financing, Drivers) are their
 *    values; the Make* functions are construction with range validation;
 *  - classes (WorkingCapitalDrivers, RevenueDrivers, ForecastDrivers) are the
 *    in-memory objects whose fields the scenario and sensitivity code scale
 *    in place after a deep copy.  Ranges are checked at construction only,
 *    so they are not an invariant of the objects.
 */
module DriverModels {
  import opened Wrappers

  datatype Industry = Retail | Manufacturing | Services | Technology | Healthcare
  {
    /** The enumeration's string value. */
    function Name(): string {
      match this
      case Retail => "retail"
      case Manufacturing => "manufacturing"
      case Services => "services"
      case Technology => "technology"
      case Healthcare => "healthcare"
    }
  }

  /** Twelve monthly seasonality coefficients; construction rejects any other length. */
  type Seasonality = s: seq<real> | |s| == 12
    witness [1.0, 1.0, 1.0, 1.0, 1.0, 1.0, 1.0, 1.0, 1.0, 1.0, 1.0, 1.0]

  datatype WorkingCapital = WorkingCapital(dsoDays: real, dpoDays: real, dioDays: real)
  {
    /** Cash conversion cycle, recomputed from the current day counts. */
    function CccDays(): real {
      dsoDays + dioDays - dpoDays
    }
  }

  datatype Revenue = Revenue(revenueGrowthPct: real, grossMarginPct: real,
                             seasonalityFactors: Option<Seasonality>)

  datatype CapEx = CapEx(capexPctOfRevenue: real, depreciationYears: int)

  datatype Financing = Financing(interestRatePct: real, debtToEquity: real, taxRatePct: real)

  datatype Drivers = Drivers(workingCapital: WorkingCapital, revenue: Revenue,
                             capex: Option<CapEx>, financing: Option<Financing>,
                             industry: Option<Industry>)

  /** What construction reports: every field outside its range, a wrong seasonality length, or every required block left out. */
  datatype ValidationError =
    | FieldErrors(fields: seq<string>)
    | SeasonalityLength(got: nat)
    | MissingFields(fields: seq<string>)

  predicate InRange(v: real, lo: real, hi: real) {
    lo <= v <= hi
  }

  /** The field's name when its value is outside [lo, hi], else nothing. */
  function CheckField(field: string, v: real, lo: real, hi: real): (r: seq<string>)
    ensures r == [] <==> InRange(v, lo, hi)
    ensures r != [] ==> r == [field]
  {
    if InRange(v, lo, hi) then [] else [field]
  }

  /** Range validation of WorkingCapitalDrivers: each day count in [0, 365]. */
  function MakeWorkingCapital(dso: real, dpo: real, dio: real): (r: Result<WorkingCapital, ValidationError>)
    ensures r.Ok? <==> InRange(dso, 0.0, 365.0) && InRange(dpo, 0.0, 365.0) && InRange(dio, 0.0, 365.0)
    ensures r.Ok? ==> r.value == WorkingCapital(dso, dpo, dio)
    ensures r.Err? ==> r.error.FieldErrors?
    ensures r.Err? ==> ("dso_days" in r.error.fields <==> !InRange(dso, 0.0, 365.0))
    ensures r.Err? ==> ("dpo_days" in r.error.fields <==> !InRange(dpo, 0.0, 365.0))
    ensures r.Err? ==> ("dio_days" in r.error.fields <==> !InRange(dio, 0.0, 365.0))
  {
    var bad := CheckField("dso_days", dso, 0.0, 365.0)
             + CheckField("dpo_days", dpo, 0.0, 365.0)
             + CheckField("dio_days", dio, 0.0, 365.0);
    if bad == [] then Ok(WorkingCapital(dso, dpo, dio)) else Err(FieldErrors(bad))
  }

  /**
   * Range validation of RevenueDrivers (growth in [-100, 500], margin in
   * [0, 100]); the seasonality length check runs only after the field checks
   * pass, and the sum of the coefficients is not checked.
   */
  function MakeRevenue(growth: real, margin: real, seasonality: Option<seq<real>>): (r: Result<Revenue, ValidationError>)
    ensures r.Ok? <==> InRange(growth, -100.0, 500.0) && InRange(margin, 0.0, 100.0)
                       && (seasonality.Some? ==> |seasonality.value| == 12)
    ensures r.Ok? ==> r.value.revenueGrowthPct == growth && r.value.grossMarginPct == margin
    ensures r.Ok? ==> (r.value.seasonalityFactors.Some? <==> seasonality.Some?)
    ensures r.Ok? && seasonality.Some? ==> r.value.seasonalityFactors.value == seasonality.value
    ensures r.Err? && InRange(growth, -100.0, 500.0) && InRange(margin, 0.0, 100.0)
            ==> r.error == SeasonalityLength(|seasonality.value|)
  {
    var bad := CheckField("revenue_growth_pct", growth, -100.0, 500.0)
             + CheckField("gross_margin_pct", margin, 0.0, 100.0);
    if bad != [] then Err(FieldErrors(bad))
    else match seasonality
      case None => Ok(Revenue(growth, margin, None))
      case Some(s) =>
        if |s| != 12 then Err(SeasonalityLength(|s|))
        else Ok(Revenue(growth, margin, Some(s)))
  }

  /** Range validation of CapExDrivers: percentage in [0, 100], whole years in [1, 40]. */
  function MakeCapEx(pct: real, years: int): (r: Result<CapEx, ValidationError>)
    ensures r.Ok? <==> InRange(pct, 0.0, 100.0) && 1 <= years <= 40
    ensures r.Ok? ==> r.value == CapEx(pct, years)
  {
    var bad := CheckField("capex_pct_of_revenue", pct, 0.0, 100.0)
             + (if 1 <= years <= 40 then [] else ["depreciation_years"]);
    if bad == [] then Ok(CapEx(pct, years)) else Err(FieldErrors(bad))
  }

  /** Range validation of FinancingDrivers: interest in [0, 50], D/E in [0, 10], tax in [0, 50]. */
  function MakeFinancing(interest: real, debtToEquity: real, tax: real): (r: Result<Financing, ValidationError>)
    ensures r.Ok? <==> InRange(interest, 0.0, 50.0) && InRange(debtToEquity, 0.0, 10.0) && InRange(tax, 0.0, 50.0)
    ensures r.Ok? ==> r.value == Financing(interest, debtToEquity, tax)
  {
    var bad := CheckField("interest_rate_pct", interest, 0.0, 50.0)
             + CheckField("debt_to_equity", debtToEquity, 0.0, 10.0)
             + CheckField("tax_rate_pct", tax, 0.0, 50.0);
    if bad == [] then Ok(Financing(interest, debtToEquity, tax)) else Err(FieldErrors(bad))
  }

  /** ForecastDrivers: working capital and revenue are required, everything else defaults to absent. */
  function MakeForecastDrivers(workingCapital: Option<WorkingCapital>, revenue: Option<Revenue>,
                               capex: Option<CapEx> := None, financing: Option<Financing> := None,
                               industry: Option<Industry> := None): (r: Result<Drivers, ValidationError>)
    ensures r.Ok? <==> workingCapital.Some? && revenue.Some?
    ensures r.Ok? ==> r.value.workingCapital == workingCapital.value && r.value.revenue == revenue.value
    ensures r.Ok? ==> r.value.capex == capex && r.value.financing == financing && r.value.industry == industry
    ensures r.Err? ==> r.error.MissingFields?
    ensures r.Err? ==> ("working_capital" in r.error.fields <==> workingCapital.None?)
    ensures r.Err? ==> ("revenue" in r.error.fields <==> revenue.None?)
  {
    var missing := (if workingCapital.None? then ["working_capital"] else [])
                 + (if revenue.None? then ["revenue"] else []);
    if missing == [] then Ok(Drivers(workingCapital.value, revenue.value, capex, financing, industry))
    else Err(MissingFields(missing))
  }

  /** Every range constraint that construction checks holds of these values. */
  predicate Validated(d: Drivers) {
    var wc := d.workingCapital;
    InRange(wc.dsoDays, 0.0, 365.0) && InRange(wc.dpoDays, 0.0, 365.0) && InRange(wc.dioDays, 0.0, 365.0)
    && InRange(d.revenue.revenueGrowthPct, -100.0, 500.0) && InRange(d.revenue.grossMarginPct, 0.0, 100.0)
    && (d.capex.Some? ==> InRange(d.capex.value.capexPctOfRevenue, 0.0, 100.0)
                          && 1 <= d.capex.value.depreciationYears <= 40)
    && (d.financing.Some? ==> InRange(d.financing.value.interestRatePct, 0.0, 50.0)
                              && InRange(d.financing.value.debtToEquity, 0.0, 10.0)
                              && InRange(d.financing.value.taxRatePct, 0.0, 50.0))
  }

  /**
   * Constructing from a DSO alone succeeds exactly on the closed range, and
   * any value outside it is reported as the single field dso_days: 365 passes
   * and 400 fails.
   */
  lemma WorkingCapitalBoundaries(dso: real)
    ensures MakeWorkingCapital(dso, 0.0, 0.0).Ok? <==> 0.0 <= dso <= 365.0
    ensures !(0.0 <= dso <= 365.0) ==> MakeWorkingCapital(dso, 0.0, 0.0) == Err(FieldErrors(["dso_days"]))
    ensures MakeWorkingCapital(365.0, 0.0, 0.0).Ok?
    ensures MakeWorkingCapital(400.0, 0.0, 0.0) == Err(FieldErrors(["dso_days"]))
  {
    assert CheckField("dso_days", 400.0, 0.0, 365.0) + CheckField("dpo_days", 0.0, 0.0, 365.0)
           + CheckField("dio_days", 0.0, 0.0, 365.0) == ["dso_days"];
    if !(0.0 <= dso <= 365.0) {
      assert CheckField("dso_days", dso, 0.0, 365.0) + CheckField("dpo_days", 0.0, 0.0, 365.0)
             + CheckField("dio_days", 0.0, 0.0, 365.0) == ["dso_days"];
    }
  }

  /** The enumeration's string values tell the industries apart. */
  lemma IndustryNamesDistinct(i: Industry, j: Industry)
    ensures i.Name() == j.Name() ==> i == j
  {
  }

  /** An 11-entry seasonality list is refused; 12 entries pass whatever their sum. */
  lemma SeasonalityLengthChecked(s: seq<real>)
    ensures |s| == 12 ==> MakeRevenue(0.0, 50.0, Some(s)).Ok?
    ensures |s| == 11 ==> MakeRevenue(0.0, 50.0, Some(s)) == Err(SeasonalityLength(11))
  {
  }

  /** Only the two required blocks must be given; the optional ones come out absent. */
  lemma OptionalBlocksDefaultAbsent(wc: WorkingCapital, rev: Revenue)
    ensures MakeForecastDrivers(Some(wc), Some(rev)) == Ok(Drivers(wc, rev, None, None, None))
  {
  }

  /** Industry defaults for CapEx, built at module load. */
  function CapExDefault(i: Industry): (c: CapEx)
    ensures MakeCapEx(c.capexPctOfRevenue, c.depreciationYears) == Ok(c)
  {
    match i
    case Retail => CapEx(3.0, 10)
    case Manufacturing => CapEx(8.0, 15)
    case Services => CapEx(2.0, 5)
    case Technology => CapEx(10.0, 5)
    case Healthcare => CapEx(6.0, 12)
  }

  /** Industry defaults for Financing, built at module load. */
  function FinancingDefault(i: Industry): (f: Financing)
    ensures MakeFinancing(f.interestRatePct, f.debtToEquity, f.taxRatePct) == Ok(f)
  {
    match i
    case Retail => Financing(6.0, 1.5, 25.0)
    case Manufacturing => Financing(5.0, 1.2, 25.0)
    case Services => Financing(5.0, 0.8, 25.0)
    case Technology => Financing(4.0, 0.5, 20.0)
    case Healthcare => Financing(5.0, 1.0, 25.0)
  }

  /** The in-memory working-capital object; its fields may be scaled in place. */
  class WorkingCapitalDrivers {
    var dsoDays: real
    var dpoDays: real
    var dioDays: real

    constructor (v: WorkingCapital)
      ensures Value() == v
    {
      dsoDays, dpoDays, dioDays := v.dsoDays, v.dpoDays, v.dioDays;
    }

    function Value(): WorkingCapital
      reads this
    {
      WorkingCapital(dsoDays, dpoDays, dioDays)
    }
  }

  /** The in-memory revenue object; growth and margin may be scaled in place. */
  class RevenueDrivers {
    var revenueGrowthPct: real
    var grossMarginPct: real
    var seasonalityFactors: Option<Seasonality>

    constructor (v: Revenue)
      ensures Value() == v
    {
      revenueGrowthPct, grossMarginPct, seasonalityFactors :=
        v.revenueGrowthPct, v.grossMarginPct, v.seasonalityFactors;
    }

    function Value(): Revenue
      reads this
    {
      Revenue(revenueGrowthPct, grossMarginPct, seasonalityFactors)
    }
  }

  /** The in-memory ForecastDrivers object, owning its two mutable sub-objects. */
  class ForecastDrivers {
    const workingCapital: WorkingCapitalDrivers
    const revenue: RevenueDrivers
    var capex: Option<CapEx>
    var financing: Option<Financing>
    var industry: Option<Industry>

    constructor (v: Drivers)
      ensures Value() == v
      ensures fresh(workingCapital) && fresh(revenue)
    {
      workingCapital := new WorkingCapitalDrivers(v.workingCapital);
      revenue := new RevenueDrivers(v.revenue);
      capex, financing, industry := v.capex, v.financing, v.industry;
    }

    function Value(): Drivers
      reads this, workingCapital, revenue
    {
      Drivers(workingCapital.Value(), revenue.Value(), capex, financing, industry)
    }

    /** A deep copy: a new object with new sub-objects and the same values. */
    method DeepCopy() returns (c: ForecastDrivers)
      ensures fresh(c) && fresh(c.workingCapital) && fresh(c.revenue)
      ensures c.Value() == Value()
    {
      c := new ForecastDrivers(Value());
    }
  }
}
