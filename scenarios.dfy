/**
 * The scenario engine: three what-if variants of one driver set, the
 * forecast totals of each, and a Monte Carlo run over random multipliers.
 *
 * A scenario's drivers are an object. The Base Case shares the engine's own
 * driver object; the Optimistic and Pessimistic cases, and every Monte Carlo
 * trial, own a deep copy that is then scaled in place. The random draws are
 * not generated here: they are handed in as a sequence, one Draw per trial.
 */
module Scenarios {
  import opened Wrappers
  import opened DriverModels
  import opened DriverBased
  import Stats

  datatype Scenario = Scenario(name: string, description: string, drivers: ForecastDrivers,
                               probability: real := 0.33)

  /** A scenario as a value: its drivers' current field values in place of the object. */
  datatype ScenarioValue = ScenarioValue(name: string, description: string, drivers: Drivers, probability: real)

  const BaseName: string := "Base Case"
  const OptimisticName: string := "Optimistic"
  const PessimisticName: string := "Pessimistic"

  /**
   * Better collections, longer supplier credit and 20% faster growth. Only
   * DSO, DPO and growth change, and for non-negative day counts the cash
   * conversion cycle gets no longer.
   */
  function Optimistic(d: Drivers): (o: Drivers)
    ensures o.workingCapital.dsoDays == d.workingCapital.dsoDays * 0.85
    ensures o.workingCapital.dpoDays == d.workingCapital.dpoDays * 1.1
    ensures o.revenue.revenueGrowthPct == d.revenue.revenueGrowthPct * 1.2
    ensures o.workingCapital.dioDays == d.workingCapital.dioDays
    ensures o.revenue.grossMarginPct == d.revenue.grossMarginPct
    ensures o.revenue.seasonalityFactors == d.revenue.seasonalityFactors
    ensures o.capex == d.capex && o.financing == d.financing && o.industry == d.industry
    ensures d.workingCapital.dsoDays >= 0.0 && d.workingCapital.dpoDays >= 0.0 ==>
              o.workingCapital.CccDays() <= d.workingCapital.CccDays()
  {
    var wc := d.workingCapital;
    d.(workingCapital := WorkingCapital(wc.dsoDays * 0.85, wc.dpoDays * 1.1, wc.dioDays),
       revenue := d.revenue.(revenueGrowthPct := d.revenue.revenueGrowthPct * 1.2))
  }

  /**
   * Slower collections, slower-moving inventory and half the growth. Only
   * DSO, DIO and growth change, and for non-negative day counts the cash
   * conversion cycle gets no shorter.
   */
  function Pessimistic(d: Drivers): (p: Drivers)
    ensures p.workingCapital.dsoDays == d.workingCapital.dsoDays * 1.2
    ensures p.workingCapital.dioDays == d.workingCapital.dioDays * 1.15
    ensures p.revenue.revenueGrowthPct == d.revenue.revenueGrowthPct * 0.5
    ensures p.workingCapital.dpoDays == d.workingCapital.dpoDays
    ensures p.revenue.grossMarginPct == d.revenue.grossMarginPct
    ensures p.revenue.seasonalityFactors == d.revenue.seasonalityFactors
    ensures p.capex == d.capex && p.financing == d.financing && p.industry == d.industry
    ensures d.workingCapital.dsoDays >= 0.0 && d.workingCapital.dioDays >= 0.0 ==>
              d.workingCapital.CccDays() <= p.workingCapital.CccDays()
  {
    var wc := d.workingCapital;
    d.(workingCapital := WorkingCapital(wc.dsoDays * 1.2, wc.dpoDays, wc.dioDays * 1.15),
       revenue := d.revenue.(revenueGrowthPct := d.revenue.revenueGrowthPct * 0.5))
  }

  /**
   * The three scenarios, as values, that the engine builds from base drivers
   * d: the Base Case on d itself, then the two variants, under three distinct
   * names and with probabilities that add up to one.
   */
  function ScenarioValues(d: Drivers): (s: seq<ScenarioValue>)
    ensures |s| == 3
    ensures s[0].drivers == d && s[1].drivers == Optimistic(d) && s[2].drivers == Pessimistic(d)
    ensures s[0].name != s[1].name && s[0].name != s[2].name && s[1].name != s[2].name
    ensures s[0].probability + s[1].probability + s[2].probability == 1.0
  {
    [ScenarioValue(BaseName, "Current trends continue", d, 0.50),
     ScenarioValue(OptimisticName, "Better receivables collection, sales growth", Optimistic(d), 0.25),
     ScenarioValue(PessimisticName, "Payment delays, growth slowdown", Pessimistic(d), 0.25)]
  }

  /** Scaled values are not re-validated: the pessimistic DSO of a valid 365 days is 438. */
  lemma PessimisticLeavesRange()
    ensures var d := Drivers(WorkingCapital(365.0, 0.0, 0.0), Revenue(0.0, 0.0, None), None, None, None);
      && Validated(d)
      && !Validated(Pessimistic(d))
      && Pessimistic(d).workingCapital.dsoDays == 438.0
  {
  }

  /** What the engine reports for one scenario. */
  datatype ScenarioResult = ScenarioResult(
    totalFcf: real, totalOcf: real, avgCcc: real, forecast: seq<ForecastRow>,
    probability: real, description: string)

  /** Forecast one scenario and reduce its table: total FCF, total OCF and mean CCC. */
  function Evaluate(s: ScenarioValue, history: History, periods: int): (r: Result<ScenarioResult, EngineError>)
    ensures r.Ok? ==> Forecast(s.drivers, history, periods) == Ok(r.value.forecast)
  {
    match Forecast(s.drivers, history, periods)
    case Err(e) => Err(e)
    case Ok(rows) =>
      match ColumnSum(rows, FreeCashflowColumn)
      case Err(e) => Err(e)
      case Ok(fcf) =>
        match ColumnSum(rows, OperatingCashflowColumn)
        case Err(e) => Err(e)
        case Ok(ocf) =>
          match ColumnMean(rows, CccDaysColumn)
          case Err(e) => Err(e)
          case Ok(ccc) => Ok(ScenarioResult(fcf, ocf, ccc, rows, s.probability, s.description))
  }

  /** Evaluating a scenario fails exactly when the history is empty or no period is forecast. */
  lemma EvaluateFails(s: ScenarioValue, history: History, periods: int)
    ensures Evaluate(s, history, periods).Err? <==> |history.revenue| == 0 || periods <= 0
    ensures |history.revenue| == 0 ==> Evaluate(s, history, periods) == Err(EmptyHistory)
    ensures |history.revenue| > 0 && periods <= 0 ==>
              Evaluate(s, history, periods) == Err(MissingColumn("free_cashflow"))
  {
  }

  /** A scenario's average CCC is its drivers' cycle, the same in every period. */
  lemma AverageCycleIsDriverCycle(s: ScenarioValue, history: History, periods: int)
    requires Evaluate(s, history, periods).Ok?
    ensures Evaluate(s, history, periods).value.avgCcc == s.drivers.workingCapital.CccDays()
  {
    var rows := Forecast(s.drivers, history, periods).value;
    var col := Column(rows, CccDaysColumn);
    forall k | 0 <= k < |col|
      ensures col[k] == s.drivers.workingCapital.CccDays()
    {
      ForecastRowIdentities(s.drivers, history, periods, k);
    }
    Stats.MeanOfConstant(col, s.drivers.workingCapital.CccDays());
  }

  /**
   * The results map over the scenarios processed so far, stopping at the
   * first failure; a successful run has one key per scenario name and no other.
   */
  function Results(scenarios: seq<ScenarioValue>, history: History, periods: int)
    : (r: Result<map<string, ScenarioResult>, EngineError>)
    ensures r.Ok? ==> r.value.Keys == Names(scenarios)
    decreases |scenarios|
  {
    if |scenarios| == 0 then Ok(map[])
    else
      var last := scenarios[|scenarios| - 1];
      match Results(scenarios[..|scenarios| - 1], history, periods)
      case Err(e) => Err(e)
      case Ok(m) =>
        match Evaluate(last, history, periods)
        case Err(e) => Err(e)
        case Ok(v) =>
          NamesSnoc(scenarios);
          Ok(m[last.name := v])
  }

  /** The names of the scenarios. */
  function Names(scenarios: seq<ScenarioValue>): set<string> {
    set s | s in scenarios :: s.name
  }

  lemma NamesSnoc(scenarios: seq<ScenarioValue>)
    requires |scenarios| > 0
    ensures Names(scenarios) == Names(scenarios[..|scenarios| - 1]) + {scenarios[|scenarios| - 1].name}
  {
    var prefix, last := scenarios[..|scenarios| - 1], scenarios[|scenarios| - 1];
    forall x | x in Names(scenarios)
      ensures x in Names(prefix) + {last.name}
    {
      var s :| s in scenarios && s.name == x;
      if s != last {
        assert s in prefix by {
          var k :| 0 <= k < |scenarios| && scenarios[k] == s;
          assert k < |scenarios| - 1;
          assert prefix[k] == s;
        }
      }
    }
    assert scenarios == prefix + [last];
  }

  /** One more scenario that evaluates adds its result under its name. */
  lemma ResultsStep(scenarios: seq<ScenarioValue>, history: History, periods: int, m: map<string, ScenarioResult>)
    requires |scenarios| > 0
    requires Results(scenarios[..|scenarios| - 1], history, periods) == Ok(m)
    requires Evaluate(scenarios[|scenarios| - 1], history, periods).Ok?
    ensures Results(scenarios, history, periods)
            == Ok(m[scenarios[|scenarios| - 1].name := Evaluate(scenarios[|scenarios| - 1], history, periods).value])
  {
  }

  /** Evaluating scenario i after the first i succeeded either fails the whole run or extends the map. */
  lemma ResultsAdvance(scenarios: seq<ScenarioValue>, history: History, periods: int, i: nat,
                       m: map<string, ScenarioResult>, outcome: Result<ScenarioResult, EngineError>)
    requires i < |scenarios|
    requires Results(scenarios[..i], history, periods) == Ok(m)
    requires outcome == Evaluate(scenarios[i], history, periods)
    ensures outcome.Err? ==> Results(scenarios, history, periods) == Err(outcome.error)
    ensures outcome.Ok? ==> Results(scenarios[..i + 1], history, periods) == Ok(m[scenarios[i].name := outcome.value])
  {
    assert scenarios[..i + 1][..i] == scenarios[..i];
    if outcome.Err? {
      ResultsFailureSticks(scenarios, history, periods, i + 1);
    } else {
      ResultsStep(scenarios[..i + 1], history, periods, m);
    }
  }

  /** A failed run stays failed when one more scenario is added. */
  lemma ResultsAfterFailure(scenarios: seq<ScenarioValue>, history: History, periods: int)
    requires |scenarios| > 0 && Results(scenarios[..|scenarios| - 1], history, periods).Err?
    ensures Results(scenarios, history, periods) == Results(scenarios[..|scenarios| - 1], history, periods)
  {
  }

  /** Once a prefix of the scenarios fails, so does the whole run, with the same error. */
  lemma {:induction false} ResultsFailureSticks(scenarios: seq<ScenarioValue>, history: History, periods: int, m: nat)
    requires m <= |scenarios|
    requires Results(scenarios[..m], history, periods).Err?
    ensures Results(scenarios, history, periods) == Results(scenarios[..m], history, periods)
  {
    ResultsFailureSpreads(scenarios, history, periods, m, |scenarios|);
    assert scenarios[..|scenarios|] == scenarios;
  }

  /** Helper for ResultsFailureSticks: every prefix at least m long carries the same error. */
  lemma {:induction false} ResultsFailureSpreads(scenarios: seq<ScenarioValue>, history: History, periods: int, m: nat, j: nat)
    requires m <= j <= |scenarios|
    requires Results(scenarios[..m], history, periods).Err?
    ensures Results(scenarios[..j], history, periods) == Results(scenarios[..m], history, periods)
    decreases j - m
  {
    if m < j {
      ResultsFailureSpreads(scenarios, history, periods, m, j - 1);
      var prefix := scenarios[..j];
      assert prefix[..j - 1] == scenarios[..j - 1];
      ResultsAfterFailure(prefix, history, periods);
    }
  }

  /** Three scenarios: the run fails with the first failing evaluation, or maps each name to its result. */
  lemma ResultsOfThree(s: seq<ScenarioValue>, history: History, periods: int)
    requires |s| == 3
    ensures Evaluate(s[0], history, periods).Err? ==>
              Results(s, history, periods) == Err(Evaluate(s[0], history, periods).error)
    ensures (forall k :: 0 <= k < 3 ==> Evaluate(s[k], history, periods).Ok?) ==>
              Results(s, history, periods) == Ok(map[s[0].name := Evaluate(s[0], history, periods).value,
                                                     s[1].name := Evaluate(s[1], history, periods).value,
                                                     s[2].name := Evaluate(s[2], history, periods).value])
  {
    assert s[..0] == [] && s[..1] == [s[0]] && s[..2] == [s[0], s[1]] && s[..3] == s;
    assert s[..2][..1] == s[..1] && s[..1][..0] == s[..0];
    if Evaluate(s[0], history, periods).Err? {
      assert Results(s[..1], history, periods).Err?;
      ResultsFailureSticks(s, history, periods, 1);
    } else if forall k :: 0 <= k < 3 ==> Evaluate(s[k], history, periods).Ok? {
      var v0 := Evaluate(s[0], history, periods).value;
      var v1 := Evaluate(s[1], history, periods).value;
      ResultsStep(s[..1], history, periods, map[]);
      ResultsStep(s[..2], history, periods, map[s[0].name := v0]);
      ResultsStep(s, history, periods, map[s[0].name := v0, s[1].name := v1]);
    }
  }

  /**
   * The scenario results: keyed by exactly the three names, each the reduced
   * forecast of its variant; the run fails when the history is empty or no
   * period is forecast.
   */
  lemma ScenarioResultsShape(d: Drivers, history: History, periods: int)
    ensures var r := Results(ScenarioValues(d), history, periods);
      && (r.Err? <==> |history.revenue| == 0 || periods <= 0)
      && (r.Ok? ==> r.value.Keys == {BaseName, OptimisticName, PessimisticName})
      && (r.Ok? ==> r.value[BaseName] == Evaluate(ScenarioValues(d)[0], history, periods).value)
      && (r.Ok? ==> r.value[OptimisticName] == Evaluate(ScenarioValues(d)[1], history, periods).value)
      && (r.Ok? ==> r.value[PessimisticName] == Evaluate(ScenarioValues(d)[2], history, periods).value)
  {
    var s := ScenarioValues(d);
    EvaluateFails(s[0], history, periods);
    EvaluateFails(s[1], history, periods);
    EvaluateFails(s[2], history, periods);
    ResultsOfThree(s, history, periods);
  }

  /** One Monte Carlo trial's multipliers: three in [0.8, 1.2) for the days, one in [0.5, 1.5) for growth. */
  datatype Draw = Draw(dso: real, dpo: real, dio: real, growth: real)

  predicate DrawInRange(w: Draw) {
    && 0.8 <= w.dso < 1.2 && 0.8 <= w.dpo < 1.2 && 0.8 <= w.dio < 1.2
    && 0.5 <= w.growth < 1.5
  }

  /**
   * The drivers of one trial: the base drivers with the three day counts and
   * the growth rate scaled by the draw, everything else kept; the draw of
   * four ones gives the base drivers back.
   */
  function TrialDrivers(d: Drivers, w: Draw): (t: Drivers)
    ensures t.workingCapital.dsoDays == d.workingCapital.dsoDays * w.dso
    ensures t.workingCapital.dpoDays == d.workingCapital.dpoDays * w.dpo
    ensures t.workingCapital.dioDays == d.workingCapital.dioDays * w.dio
    ensures t.revenue.revenueGrowthPct == d.revenue.revenueGrowthPct * w.growth
    ensures t.revenue.grossMarginPct == d.revenue.grossMarginPct
    ensures t.revenue.seasonalityFactors == d.revenue.seasonalityFactors
    ensures t.capex == d.capex && t.financing == d.financing && t.industry == d.industry
    ensures w == Draw(1.0, 1.0, 1.0, 1.0) ==> t == d
  {
    var wc := d.workingCapital;
    d.(workingCapital := WorkingCapital(wc.dsoDays * w.dso, wc.dpoDays * w.dpo, wc.dioDays * w.dio),
       revenue := d.revenue.(revenueGrowthPct := d.revenue.revenueGrowthPct * w.growth))
  }

  /** A draw in range keeps each non-negative day count within 20% of the base. */
  lemma TrialWithinTwentyPercent(d: Drivers, w: Draw)
    requires DrawInRange(w)
    requires d.workingCapital.dsoDays >= 0.0
    ensures 0.8 * d.workingCapital.dsoDays <= TrialDrivers(d, w).workingCapital.dsoDays
    ensures TrialDrivers(d, w).workingCapital.dsoDays <= 1.2 * d.workingCapital.dsoDays
  {
    var x := d.workingCapital.dsoDays;
    Stats.MulLeRight(0.8, w.dso, x);
    Stats.MulLeRight(w.dso, 1.2, x);
  }

  /** One trial's total free cash flow; it fails exactly when there is no forecast table to sum. */
  function TrialTotal(d: Drivers, history: History, periods: int, w: Draw): (r: Result<real, EngineError>)
    ensures r.Err? <==> |history.revenue| == 0 || periods <= 0
    ensures |history.revenue| == 0 ==> r == Err(EmptyHistory)
    ensures |history.revenue| > 0 && periods <= 0 ==> r == Err(MissingColumn("free_cashflow"))
  {
    match Forecast(TrialDrivers(d, w), history, periods)
    case Err(e) => Err(e)
    case Ok(rows) => ColumnSum(rows, FreeCashflowColumn)
  }

  /** The totals of the trials run so far, one per draw, stopping at the first failure. */
  function Totals(d: Drivers, history: History, periods: int, draws: seq<Draw>): (r: Result<seq<real>, EngineError>)
    ensures r.Ok? ==> |r.value| == |draws|
    ensures r.Ok? ==> forall k :: 0 <= k < |draws| ==> TrialTotal(d, history, periods, draws[k]) == Ok(r.value[k])
    decreases |draws|
  {
    if |draws| == 0 then Ok([])
    else
      var last := draws[|draws| - 1];
      match Totals(d, history, periods, draws[..|draws| - 1])
      case Err(e) => Err(e)
      case Ok(totals) =>
        match TrialTotal(d, history, periods, last)
        case Err(e) => Err(e)
        case Ok(t) => Ok(totals + [t])
  }

  lemma {:induction false} TotalsFailureSticks(d: Drivers, history: History, periods: int, draws: seq<Draw>, m: nat)
    requires m <= |draws|
    requires Totals(d, history, periods, draws[..m]).Err?
    ensures Totals(d, history, periods, draws) == Totals(d, history, periods, draws[..m])
    decreases |draws| - m
  {
    if m < |draws| {
      var n := |draws|;
      assert draws[..n - 1][..m] == draws[..m];
      TotalsFailureSticks(d, history, periods, draws[..n - 1], m);
      assert Totals(d, history, periods, draws) == Totals(d, history, periods, draws[..n - 1]);
    } else {
      assert draws[..m] == draws;
    }
  }

  /** Running trial t after the first t succeeded either fails the whole run or appends its total. */
  lemma TotalsAdvance(d: Drivers, history: History, periods: int, draws: seq<Draw>, t: nat,
                      totals: seq<real>, total: Result<real, EngineError>)
    requires t < |draws|
    requires Totals(d, history, periods, draws[..t]) == Ok(totals)
    requires total == TrialTotal(d, history, periods, draws[t])
    ensures total.Err? ==> Totals(d, history, periods, draws) == Err(total.error)
    ensures total.Ok? ==> Totals(d, history, periods, draws[..t + 1]) == Ok(totals + [total.value])
  {
    assert draws[..t + 1][..t] == draws[..t];
    if total.Err? {
      TotalsFailureSticks(d, history, periods, draws, t + 1);
    }
  }

  /** The trials fail, all alike, exactly when there is a trial and the history is empty or no period is forecast. */
  lemma {:induction false} TotalsFail(d: Drivers, history: History, periods: int, draws: seq<Draw>)
    ensures Totals(d, history, periods, draws).Err? <==> |draws| > 0 && (|history.revenue| == 0 || periods <= 0)
    ensures |draws| > 0 && |history.revenue| == 0 ==> Totals(d, history, periods, draws) == Err(EmptyHistory)
    decreases |draws|
  {
    if |draws| > 0 {
      TotalsFail(d, history, periods, draws[..|draws| - 1]);
    }
  }

  /** The distribution summary of the trial totals; the standard deviation is reported as the variance. */
  datatype MonteCarloResult = MonteCarloResult(
    mean: real, variance: real, p5: real, p25: real, p50: real, p75: real, p95: real,
    min: real, max: real)

  /** Mean, variance, percentiles by linear interpolation, minimum and maximum; no totals is an error. */
  function Summarize(totals: seq<real>): (r: Result<MonteCarloResult, EngineError>)
    ensures r.Err? <==> |totals| == 0
    ensures r.Err? ==> r.error == EmptySample
    ensures r.Ok? ==> r.value.min == Stats.MinOf(totals) && r.value.max == Stats.MaxOf(totals)
    ensures r.Ok? ==> r.value.variance >= 0.0
  {
    if |totals| == 0 then Err(EmptySample)
    else
      var sorted := Stats.SortAsc(totals);
      Ok(MonteCarloResult(Stats.Mean(totals), Stats.Variance(totals),
                          Stats.Percentile(sorted, 5.0), Stats.Percentile(sorted, 25.0),
                          Stats.Percentile(sorted, 50.0), Stats.Percentile(sorted, 75.0),
                          Stats.Percentile(sorted, 95.0),
                          Stats.MinOf(totals), Stats.MaxOf(totals)))
  }

  /**
   * The Monte Carlo run: one total per draw, then their summary. It fails
   * without draws, and otherwise exactly when the trials fail.
   */
  function MonteCarlo(d: Drivers, history: History, periods: int, draws: seq<Draw>)
    : (r: Result<MonteCarloResult, EngineError>)
    ensures |draws| == 0 ==> r == Err(EmptySample)
    ensures r.Err? <==> |draws| == 0 || |history.revenue| == 0 || periods <= 0
    ensures r.Ok? ==> r.value.variance >= 0.0
  {
    TotalsFail(d, history, periods, draws);
    match Totals(d, history, periods, draws)
    case Err(e) => Err(e)
    case Ok(totals) => Summarize(totals)
  }

  /** The summary is ordered: min <= p5 <= p25 <= p50 <= p75 <= p95 <= max, and the mean lies in [min, max]. */
  lemma SummaryOrdered(totals: seq<real>)
    requires |totals| > 0
    ensures var s := Summarize(totals).value;
      && s.min <= s.p5 <= s.p25 <= s.p50 <= s.p75 <= s.p95 <= s.max
      && s.min <= s.mean <= s.max
  {
    var sorted := Stats.SortAsc(totals);
    Stats.SortedEnds(totals);
    Stats.PercentileBounds(sorted, 5.0);
    Stats.PercentileBounds(sorted, 95.0);
    Stats.PercentileMonotone(sorted, 5.0, 25.0);
    Stats.PercentileMonotone(sorted, 25.0, 50.0);
    Stats.PercentileMonotone(sorted, 50.0, 75.0);
    Stats.PercentileMonotone(sorted, 75.0, 95.0);
    Stats.MeanBetween(totals);
  }

  /** A Monte Carlo run with at least one trial is ordered whenever it succeeds; with none it fails. */
  lemma MonteCarloOrdered(d: Drivers, history: History, periods: int, draws: seq<Draw>)
    ensures var r := MonteCarlo(d, history, periods, draws);
      && (|draws| == 0 ==> r == Err(EmptySample))
      && (r.Ok? ==> r.value.min <= r.value.p5 <= r.value.p25 <= r.value.p50
                    <= r.value.p75 <= r.value.p95 <= r.value.max)
      && (r.Ok? ==> r.value.min <= r.value.mean <= r.value.max)
  {
    match Totals(d, history, periods, draws)
    case Err(_) =>
    case Ok(totals) =>
      if |totals| > 0 {
        SummaryOrdered(totals);
      }
  }

  /** The engine over one base driver object, shared with the Base Case and copied for every variant. */
  class ScenarioEngine {
    const baseDrivers: ForecastDrivers

    constructor (baseDrivers: ForecastDrivers)
      ensures this.baseDrivers == baseDrivers
    {
      this.baseDrivers := baseDrivers;
    }

    /**
     * Base Case, Optimistic and Pessimistic, in that order. The Base Case
     * holds the engine's own driver object; the other two hold new deep
     * copies scaled in place, so changing them leaves the base alone.
     */
    method CreateScenarios() returns (scenarios: seq<Scenario>)
      ensures |scenarios| == 3
      ensures scenarios[0] == Scenario(BaseName, "Current trends continue", baseDrivers, 0.50)
      ensures scenarios[1].name == OptimisticName && scenarios[1].probability == 0.25
      ensures scenarios[1].description == "Better receivables collection, sales growth"
      ensures scenarios[2].name == PessimisticName && scenarios[2].probability == 0.25
      ensures scenarios[2].description == "Payment delays, growth slowdown"
      ensures fresh(scenarios[1].drivers) && fresh(scenarios[1].drivers.workingCapital) && fresh(scenarios[1].drivers.revenue)
      ensures fresh(scenarios[2].drivers) && fresh(scenarios[2].drivers.workingCapital) && fresh(scenarios[2].drivers.revenue)
      ensures scenarios[1].drivers.workingCapital != scenarios[2].drivers.workingCapital
      ensures scenarios[1].drivers.revenue != scenarios[2].drivers.revenue
      ensures scenarios[1].drivers.Value() == Optimistic(baseDrivers.Value())
      ensures scenarios[2].drivers.Value() == Pessimistic(baseDrivers.Value())
    {
      var base := Scenario(BaseName, "Current trends continue", baseDrivers, 0.50);

      var opt := baseDrivers.DeepCopy();
      ScaleOptimistic(opt);
      var optimistic := Scenario(OptimisticName, "Better receivables collection, sales growth", opt, 0.25);

      var pes := baseDrivers.DeepCopy();
      ScalePessimistic(pes);
      var pessimistic := Scenario(PessimisticName, "Payment delays, growth slowdown", pes, 0.25);

      scenarios := [base, optimistic, pessimistic];
    }

    /** Forecast every scenario and map its name to its totals, failing on the first error. */
    method RunScenarios(history: History, periods: int := 12)
      returns (r: Result<map<string, ScenarioResult>, EngineError>)
      ensures r == Results(ScenarioValues(baseDrivers.Value()), history, periods)
    {
      var scenarios := CreateScenarios();
      ghost var expected := ScenarioValues(baseDrivers.Value());
      assert ValueOf(scenarios[0]) == expected[0];
      assert ValueOf(scenarios[1]) == expected[1];
      assert ValueOf(scenarios[2]) == expected[2];
      r := RunAll(scenarios, expected, history, periods);
    }

    /**
     * Run one trial per draw, up to nSimulations of them: copy the base
     * drivers, scale DSO, DPO, DIO and growth by the draw, forecast and
     * total the free cash flow; then summarise the totals.
     */
    method RunMonteCarlo(history: History, draws: seq<Draw>, nSimulations: int := 1000, periods: int := 12)
      returns (r: Result<MonteCarloResult, EngineError>)
      requires PeriodCount(nSimulations) <= |draws|
      ensures r == MonteCarlo(baseDrivers.Value(), history, periods, draws[..PeriodCount(nSimulations)])
    {
      var n := PeriodCount(nSimulations);
      ghost var base := baseDrivers.Value();
      var results: seq<real> := [];
      for t := 0 to n
        invariant baseDrivers.Value() == base
        invariant Totals(base, history, periods, draws[..t]) == Ok(results)
      {
        var total := RunTrial(history, draws[t], periods);
        assert draws[..n][..t] == draws[..t] && draws[..n][..t + 1] == draws[..t + 1];
        TotalsAdvance(base, history, periods, draws[..n], t, results, total);
        if total.Err? {
          return Err(total.error);
        }
        results := results + [total.value];
      }
      assert draws[..n][..n] == draws[..n];
      r := Summarize(results);
    }

    /** One trial: copy the base drivers, scale them by the draw, forecast and total the free cash flow. */
    method RunTrial(history: History, w: Draw, periods: int) returns (r: Result<real, EngineError>)
      ensures r == TrialTotal(baseDrivers.Value(), history, periods, w)
    {
      var drivers := baseDrivers.DeepCopy();
      ScaleByDraw(drivers, w);
      var forecaster := new DriverBasedForecaster(drivers);
      var forecast := forecaster.GenerateForecast(history, periods);
      if forecast.Err? {
        return Err(forecast.error);
      }
      r := ColumnSum(forecast.value, FreeCashflowColumn);
    }
  }

  /** The optimistic adjustment, in place: DSO -15%, DPO +10%, growth +20%. */
  method ScaleOptimistic(c: ForecastDrivers)
    modifies c.workingCapital, c.revenue
    ensures c.Value() == Optimistic(old(c.Value()))
  {
    c.workingCapital.dsoDays := c.workingCapital.dsoDays * 0.85;
    c.workingCapital.dpoDays := c.workingCapital.dpoDays * 1.1;
    c.revenue.revenueGrowthPct := c.revenue.revenueGrowthPct * 1.2;
  }

  /** The pessimistic adjustment, in place: DSO +20%, DIO +15%, growth -50%. */
  method ScalePessimistic(c: ForecastDrivers)
    modifies c.workingCapital, c.revenue
    ensures c.Value() == Pessimistic(old(c.Value()))
  {
    c.workingCapital.dsoDays := c.workingCapital.dsoDays * 1.2;
    c.workingCapital.dioDays := c.workingCapital.dioDays * 1.15;
    c.revenue.revenueGrowthPct := c.revenue.revenueGrowthPct * 0.5;
  }

  /** One trial's random variation, in place. */
  method ScaleByDraw(c: ForecastDrivers, w: Draw)
    modifies c.workingCapital, c.revenue
    ensures c.Value() == TrialDrivers(old(c.Value()), w)
  {
    c.workingCapital.dsoDays := c.workingCapital.dsoDays * w.dso;
    c.workingCapital.dpoDays := c.workingCapital.dpoDays * w.dpo;
    c.workingCapital.dioDays := c.workingCapital.dioDays * w.dio;
    c.revenue.revenueGrowthPct := c.revenue.revenueGrowthPct * w.growth;
  }

  /** The value a scenario object stands for, with its drivers' current values. */
  function ValueOf(s: Scenario): ScenarioValue
    reads s.drivers, s.drivers.workingCapital, s.drivers.revenue
  {
    ScenarioValue(s.name, s.description, s.drivers.Value(), s.probability)
  }

  /** Forecast the scenarios in order and map each name to its totals, failing on the first error. */
  method RunAll(scenarios: seq<Scenario>, ghost values: seq<ScenarioValue>, history: History, periods: int)
    returns (r: Result<map<string, ScenarioResult>, EngineError>)
    requires |values| == |scenarios|
    requires forall k :: 0 <= k < |scenarios| ==> ValueOf(scenarios[k]) == values[k]
    ensures r == Results(values, history, periods)
  {
    var results: map<string, ScenarioResult> := map[];
    for i := 0 to |scenarios|
      invariant forall k :: 0 <= k < |scenarios| ==> ValueOf(scenarios[k]) == values[k]
      invariant Results(values[..i], history, periods) == Ok(results)
    {
      var outcome := RunScenario(scenarios[i], values[i], history, periods);
      ResultsAdvance(values, history, periods, i, results, outcome);
      if outcome.Err? {
        return Err(outcome.error);
      }
      results := results[scenarios[i].name := outcome.value];
    }
    assert values[..|scenarios|] == values;
    return Ok(results);
  }

  /** Forecast one scenario with its own forecaster and reduce the table to its totals. */
  method RunScenario(scenario: Scenario, ghost value: ScenarioValue, history: History, periods: int)
    returns (r: Result<ScenarioResult, EngineError>)
    requires ValueOf(scenario) == value
    ensures r == Evaluate(value, history, periods)
  {
    var forecaster := new DriverBasedForecaster(scenario.drivers);
    var forecast := forecaster.GenerateForecast(history, periods);
    if forecast.Err? {
      return Err(forecast.error);
    }
    var rows := forecast.value;
    var totalFcf := ColumnSum(rows, FreeCashflowColumn);
    var totalOcf := ColumnSum(rows, OperatingCashflowColumn);
    var avgCcc := ColumnMean(rows, CccDaysColumn);
    if totalFcf.Err? || totalOcf.Err? || avgCcc.Err? {
      return Err(totalFcf.error);
    }
    return Ok(ScenarioResult(totalFcf.value, totalOcf.value, avgCcc.value,
                             rows, scenario.probability, scenario.description));
  }

  /** Changing the optimistic copy after the scenarios are built changes neither the base object nor the Base Case. */
  method CopiesAreIsolated(engine: ScenarioEngine) returns (scenarios: seq<Scenario>)
    ensures |scenarios| == 3
    ensures engine.baseDrivers.Value() == old(engine.baseDrivers.Value())
    ensures scenarios[0].drivers.Value() == old(engine.baseDrivers.Value())
    ensures scenarios[1].drivers.workingCapital.dsoDays == 0.0
  {
    scenarios := engine.CreateScenarios();
    scenarios[1].drivers.workingCapital.dsoDays := 0.0;
  }
}
