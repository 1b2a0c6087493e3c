# fcf-planner forecasting core, modelled in Dafny

This project models the numeric core of fcf-planner, a free-cash-flow planning tool:

- **Driver records.** `drivers/models.py` defines the driver records (working capital DSO/DPO/DIO; revenue growth, gross margin and seasonality; optional CapEx and Financing blocks). Their construction rejects out-of-range fields and any seasonality list that does not have 12 entries.
- **Working-capital calculator.** `drivers/calculator.py` works on an annual basis of 365 days.
- **Soft validator.** `drivers/validator.py` returns advisory warnings.
- **Driver-based forecaster.** `forecasting/driver_based.py` rolls revenue and COGS forward period by period. Growth is monthly and seasonality is applied after growth. From each period it derives working capital, the change in working capital against the previous period, operating cash flow by the indirect method, and free cash flow after CapEx.
- **Scenario engine.** `forecasting/scenarios.py` builds Base Case, Optimistic and Pessimistic variants and totals their forecasts. It also runs a Monte Carlo over random driver multipliers and summarises the totals with mean, spread, percentiles, minimum and maximum.
- **Sensitivity analyzer.** `forecasting/sensitivity.py` varies one named driver by a list of percentages. It also builds the tornado table of the five drivers' ±10% swings, largest swing first.
- **Historical-series analyzer.** `ai_agents/forecast_analyzer.py` assigns a trend label, a volatility label and a summary record.

The project has one module per source file, plus two shared modules: `Wrappers` (Option and Result) and `Stats` (sum, mean, variance, min/max, sort and percentile).

**Values and objects.** Driver values are datatypes, and the `Make*` functions model pydantic construction with its range checks. The mutable pydantic objects are classes (`WorkingCapitalDrivers`, `RevenueDrivers`, `ForecastDrivers`). The scenario and sensitivity code deep-copies those objects and scales the copies in place. As in the code, the Base Case shares the engine's own driver object; it is not a copy.

**Methods and the functions they meet.** Each engine method is imperative Dafny with the loop the source has. Each is proved equal to a function on values:

- `GenerateForecast` against `Forecast`;
- `RunScenarios` against `Results`;
- `RunMonteCarlo` against `MonteCarlo`;
- `AnalyzeDriverSensitivity` against `Analysis`;
- `TornadoChartData` against `Tornado`.

The properties are proved about those functions.

**Error model.** The source's exceptions are `Result` errors:

- `EmptyHistory` is the `IndexError` on an empty history.
- `MissingColumn` is the `KeyError` raised when a column is read from an empty forecast table.
- `UnknownDriver` is the `ValueError` for an unrecognised driver name.
- `EmptySample` is the reduction over no Monte Carlo totals.
- `NoValues` is the `np.min` of an empty list.

**Three behaviours of the code are kept as written:**

- **Non-positive `periods`.** `generate_forecast` does not fail for periods < 1. It returns an empty table, and the failure happens only downstream, when a column of that table is read. So `Forecast` succeeds with no rows, and `Evaluate`, `FcfTotal` and `TrialTotal` fail with `MissingColumn`. A negative count behaves like zero.
- **Unused trend label.** The docstring of `calculate_trend` lists a "stability" label that the code never returns. An average change of exactly 0 is labelled "significant decrease". `CalculateTrend` keeps that behaviour.
- **Base Case sharing.** The Base Case is not cloned; it shares the base driver object. `CreateScenarios` states this aliasing, and `CopiesAreIsolated` shows that scaling a variant leaves the base alone.

## Model

| member | source | states |
|---|---|---|
| DriverModels.CheckField | drivers/models.py:26-37 | a field is reported exactly when its value lies outside the closed range, and then only its own name |
| DriverModels.MakeWorkingCapital | drivers/models.py:23-37 | construction succeeds iff all three day counts lie in [0, 365]; on failure the error names exactly the out-of-range fields |
| DriverModels.MakeRevenue | drivers/models.py:45-70 | succeeds iff growth is in [-100, 500], margin is in [0, 100] and any seasonality list has 12 entries; the fields are kept; with valid fields the failure is the length error carrying the actual length |
| DriverModels.MakeCapEx | drivers/models.py:73-83 | succeeds iff the percentage is in [0, 100] and the whole years are in [1, 40], keeping both |
| DriverModels.MakeFinancing | drivers/models.py:86-100 | succeeds iff interest is in [0, 50], D/E is in [0, 10] and tax is in [0, 50], keeping all three |
| DriverModels.MakeForecastDrivers | drivers/models.py:103-114 | succeeds iff both required blocks are given; the optional blocks and the industry are passed through unchanged; a failure names every missing block and only those |
| DriverModels.WorkingCapitalBoundaries | drivers/models.py:26-29 | the range is closed: a DSO alone is accepted iff it lies in [0, 365], and any other value is rejected with the single field dso_days (365 passes, 400 fails) |
| DriverModels.SeasonalityLengthChecked | drivers/models.py:61-70 | 12 coefficients are accepted whatever their sum, and 11 are rejected with the length 11 in the error |
| DriverModels.OptionalBlocksDefaultAbsent | drivers/models.py:110-114 | given only the two required blocks, CapEx, Financing and industry come out absent |
| DriverModels.IndustryNamesDistinct | drivers/models.py:14-20 | no two industries share a string value |
| DriverModels.CapExDefault | drivers/defaults.py:34-40 | every industry's CapEx default passes CapEx construction |
| DriverModels.FinancingDefault | drivers/defaults.py:42-48 | every industry's Financing default passes Financing construction |
| DriverModels.WorkingCapitalDrivers.constructor | drivers/models.py:23-42 | the new object holds the given day counts |
| DriverModels.RevenueDrivers.constructor | drivers/models.py:45-59 | the new object holds the given growth, margin and seasonality |
| DriverModels.ForecastDrivers.constructor | drivers/models.py:103-114 | the new object holds the given values, in newly allocated sub-objects |
| DriverModels.ForecastDrivers.DeepCopy | forecasting/scenarios.py:44 | the copy is a new object with new sub-objects and the same values as the original |
| Calculator.AccountsReceivable | drivers/calculator.py:15-17 | receivables times 365 equal annual revenue times DSO |
| Calculator.AccountsPayable | drivers/calculator.py:20-22 | payables times 365 equal annual COGS times DPO |
| Calculator.Inventory | drivers/calculator.py:25-27 | inventory times 365 equals annual COGS times DIO |
| Calculator.Ccc | drivers/calculator.py:39-41 | the cycle from separate day counts equals the driver record's ccc_days (DSO + DIO - DPO) |
| Calculator.WorkingCapitalFromDrivers | drivers/calculator.py:44-65 | AR, AP and inventory are the rounded exact products over 365; NWC is the rounded exact net of the UNROUNDED components; the cycle is rounded to 1 place |
| Calculator.ReceivableExample | drivers/calculator.py:15-17 | 3650 of revenue collected in 20 days leaves 200 in receivables |
| Calculator.ComponentsLinear | drivers/calculator.py:15-27 | each component is linear in its money input and zero at zero days |
| Calculator.NetWorkingCapitalIdentity | drivers/calculator.py:30-36 | NWC times 365 equals revenue·DSO + COGS·(DIO - DPO) |
| Validator.CheckIndex | drivers/validator.py:13-93 | every warning kind belongs to one of the 11 checks |
| Validator.Triggered | drivers/validator.py:13-93 | only the eleven numbered checks can fire; the seasonality-sum, CapEx and leverage checks fire only when their optional block is present (lines 70, 79, 86) |
| Validator.Reported | drivers/validator.py:13-93 | the first n checks report at most n warnings |
| Validator.WarningFor | drivers/validator.py:13-93 | the warning that check k reports belongs to check k |
| Validator.ValidateDrivers | drivers/validator.py:13-93 | the warnings come in check order, each check at most once; every reported warning's check fired and quotes that check's values; every check that fires is reported |
| Validator.WorkingCapitalChecks | drivers/validator.py:18-48 | the five working-capital checks report exactly the fired ones, in order |
| Validator.RevenueChecks | drivers/validator.py:50-76 | the margin, growth and seasonality-sum checks extend the report exactly by the fired ones |
| Validator.CapexAndFinancingChecks | drivers/validator.py:78-91 | the CapEx and D/E checks fire only when their block is present, and extend the report by the fired ones |
| Validator.ReportedContract | drivers/validator.py:13-93 | the full report is ordered, duplicate-free, sound and complete with respect to the checks that fire |
| Validator.ReportedInOrder | drivers/validator.py:13-93 | after any prefix of the checks, exactly the fired checks of that prefix are reported, in order |
| Validator.DpoWarningIffNegativeCcc | drivers/validator.py:37-48 | "DPO exceeds DSO + DIO" fires exactly when "negative CCC" fires |
| Validator.MarginWarningsExclusive | drivers/validator.py:52-62 | the low-margin and high-margin warnings never fire together |
| Validator.ThresholdsAreStrict | drivers/validator.py:19-35 | values exactly at the DSO, DPO, DIO and growth thresholds raise nothing |
| DriverBased.ForecastWorkingCapital | forecasting/driver_based.py:21-41 | NWC is AR + inventory - AP; the cycle is the drivers' DSO + DIO - DPO; a component whose day count is zero is zero |
| DriverBased.WorkingCapitalMatchesCalculator | forecasting/driver_based.py:21-41 | the forecaster's working capital agrees with the calculator's formulas and its NWC and CCC identities |
| DriverBased.OperatingCashflowIdentities | forecasting/driver_based.py:43-67 | ΔNWC is the current NWC less the previous one and equals ΔAR + ΔInventory - ΔAP; OCF equals gross profit + depreciation - ΔNWC |
| DriverBased.FreeCashflowIdentities | forecasting/driver_based.py:69-81 | FCF + CapEx = OCF; without a CapEx block, CapEx is 0 and FCF = OCF |
| DriverBased.NextRevenueAndCogs | forecasting/driver_based.py:106-115 | revenue = previous · (1 + growth/1200) · seasonal factor[i mod 12]; COGS comes from the grown revenue BEFORE seasonality |
| DriverBased.StepRevenue | forecasting/driver_based.py:108-115 | a period's revenue by the growth multiplier and the seasonal factor |
| DriverBased.StepCogs | forecasting/driver_based.py:108-110 | a period's COGS from the previous revenue grown, times (1 - margin) |
| DriverBased.RowIdentities | forecasting/driver_based.py:117-132 | each row keeps the NWC, ΔNWC, CCC, gross-profit, 2% depreciation, OCF and FCF identities against the previous period |
| DriverBased.Rows | forecasting/driver_based.py:105-135 | one row per remaining period, numbered consecutively |
| DriverBased.RowsUnfold | forecasting/driver_based.py:106-135 | the first row is the current step; the rest are seeded by it |
| DriverBased.Forecast | forecasting/driver_based.py:98-137 | fails exactly on an empty history (with EmptyHistory); otherwise max(periods, 0) rows with periods 1, 2, … |
| DriverBased.RowsAt | forecasting/driver_based.py:106-135 | the k-th row is period k's step seeded by row k-1 |
| DriverBased.ForecastRecurrence | forecasting/driver_based.py:98-135 | row 0 is seeded by the last historical revenue and COGS (else 65% of revenue); every later row by the row before it |
| DriverBased.ForecastRevenue | forecasting/driver_based.py:108-115 | every row's revenue is the period's step from the previous row's revenue |
| DriverBased.ForecastCogs | forecasting/driver_based.py:108-110 | every row's COGS is taken from the previous revenue grown |
| DriverBased.ForecastRowIdentities | forecasting/driver_based.py:117-135 | every forecast row satisfies the working-capital and cash-flow identities against the previous row (the seed for row 0); its gross profit is revenue times the margin, and with a CapEx block its CapEx is revenue times the CapEx percentage |
| DriverBased.GrowthOnly | forecasting/driver_based.py:108-115 | without seasonality each revenue is the previous one times the growth multiplier |
| DriverBased.UnseasonedRevenue | forecasting/driver_based.py:108-115 | without seasonality a step only grows |
| DriverBased.Compounding | forecasting/driver_based.py:106-135 | rows each grown by g from the one before compound to seed · g^(k+1) |
| DriverBased.FlatRevenue | forecasting/driver_based.py:106-135 | with zero growth and no seasonality every projected revenue is the last historical revenue |
| DriverBased.Column | forecasting/scenarios.py:82-84 | a column has one entry per row, each that row's field |
| DriverBased.ColumnSum | forecasting/scenarios.py:82-83 | fails exactly on a table with no rows (missing column); otherwise sums the column |
| DriverBased.ColumnMean | forecasting/scenarios.py:84 | fails exactly on a table with no rows; otherwise the mean of the column |
| DriverBased.RowsTelescope | forecasting/driver_based.py:55 | the ΔNWC column sums to the last NWC less the seed's |
| DriverBased.ForecastTelescope | forecasting/driver_based.py:55 | over a forecast, total ΔNWC is the final NWC less the NWC of the last historical period |
| DriverBased.NoPeriodsNoColumn | forecasting/driver_based.py:105-137 | with no periods the forecast has no free_cashflow column to sum |
| DriverBased.GoldenForecast | forecasting/driver_based.py:98-132 | for history [1000, 1100, 1200] with no COGS column, DSO 45, DPO 30, DIO 60, 10% growth and a 35% margin: revenue 1210, COGS 786.5, ΔNWC 645/365 and FCF 447.7 - 645/365 |
| DriverBased.FlatSeedExample | forecasting/driver_based.py:98-115 | one revenue of 1000 with zero growth and margin projects 1000 |
| DriverBased.ProjectPeriod | forecasting/driver_based.py:107-115 | one loop pass equals `Step` |
| DriverBased.BuildRow | forecasting/driver_based.py:117-132 | the row assembled from the three figure groups equals `RowOf` |
| DriverBased.DriverBasedForecaster.constructor | forecasting/driver_based.py:18-19 | the forecaster holds the given driver object |
| DriverBased.DriverBasedForecaster.GenerateForecast | forecasting/driver_based.py:83-137 | the loop's table equals `Forecast` of the drivers' current values |
| Scenarios.Optimistic | forecasting/scenarios.py:43-47 | DSO ×0.85, DPO ×1.1 and growth ×1.2, everything else kept; for non-negative DSO and DPO the cycle is no longer than the base |
| Scenarios.Pessimistic | forecasting/scenarios.py:55-59 | DSO ×1.2, DIO ×1.15 and growth ×0.5, everything else kept; for non-negative DSO and DIO the cycle is no shorter than the base |
| Scenarios.ScenarioValues | forecasting/scenarios.py:31-67 | three scenarios with distinct names, holding the base, optimistic and pessimistic values, whose probabilities sum to 1 |
| Scenarios.PessimisticLeavesRange | forecasting/scenarios.py:57 | scaled values are not re-validated: a valid DSO of 365 becomes 438 |
| Scenarios.Evaluate | forecasting/scenarios.py:79-88 | a successful result carries the scenario's own forecast table |
| Scenarios.EvaluateFails | forecasting/scenarios.py:79-84 | a scenario fails exactly on empty history (EmptyHistory) or no periods (missing free_cashflow) |
| Scenarios.AverageCycleIsDriverCycle | forecasting/scenarios.py:84 | a scenario's average CCC is its drivers' cycle |
| Scenarios.Results | forecasting/scenarios.py:77-89 | a successful run is keyed by exactly the scenario names |
| Scenarios.ResultsStep | forecasting/scenarios.py:78-88 | a scenario that evaluates is added under its name |
| Scenarios.ResultsAdvance | forecasting/scenarios.py:78-88 | the next scenario either fails the whole run with its error or extends the map |
| Scenarios.ResultsAfterFailure | forecasting/scenarios.py:78-80 | a failed run stays failed after one more scenario |
| Scenarios.ResultsFailureSticks | forecasting/scenarios.py:78-80 | the first failure is the run's error |
| Scenarios.ResultsOfThree | forecasting/scenarios.py:77-89 | with three scenarios: the first failure propagates, else each name maps to its result |
| Scenarios.ScenarioResultsShape | forecasting/scenarios.py:69-89 | the run fails exactly on empty history or no periods; otherwise it is keyed by exactly "Base Case", "Optimistic" and "Pessimistic", each the reduced forecast of its variant |
| Scenarios.TrialDrivers | forecasting/scenarios.py:105-111 | DSO, DPO, DIO and growth are scaled by their draws and everything else kept; the all-ones draw changes nothing |
| Scenarios.TrialTotal | forecasting/scenarios.py:104-115 | a trial fails exactly on empty history (EmptyHistory) or no periods (missing free_cashflow) |
| Scenarios.TrialWithinTwentyPercent | forecasting/scenarios.py:108 | a draw in [0.8, 1.2) keeps DSO within ±20% of the base |
| Scenarios.Totals | forecasting/scenarios.py:104-115 | a successful run has one total per draw, each that trial's FCF total |
| Scenarios.TotalsFailureSticks | forecasting/scenarios.py:104-115 | once a trial fails, the run fails with the same error |
| Scenarios.TotalsAdvance | forecasting/scenarios.py:104-115 | the next trial either fails the run or appends its total |
| Scenarios.TotalsFail | forecasting/scenarios.py:104-115 | trials fail exactly when there is one and the history is empty or no period is forecast |
| Scenarios.Summarize | forecasting/scenarios.py:117-129 | no totals is an error; otherwise min and max are the sample's extremes and the variance is non-negative |
| Scenarios.SummaryOrdered | forecasting/scenarios.py:117-129 | min ≤ p5 ≤ p25 ≤ p50 ≤ p75 ≤ p95 ≤ max, and min ≤ mean ≤ max |
| Scenarios.MonteCarlo | forecasting/scenarios.py:102-129 | zero trials give EmptySample; the run fails exactly on zero trials, empty history or no periods; a successful run has non-negative variance |
| Scenarios.MonteCarloOrdered | forecasting/scenarios.py:91-129 | zero trials fail; a successful run is ordered as above |
| Scenarios.ScenarioEngine.constructor | forecasting/scenarios.py:28-29 | the engine holds the given base object |
| Scenarios.ScenarioEngine.CreateScenarios | forecasting/scenarios.py:31-67 | three scenarios in order: Base Case aliases the base object, and the other two are distinct fresh deep copies holding Optimistic/Pessimistic of the base values; names, descriptions and probabilities are as listed |
| Scenarios.ScenarioEngine.RunScenarios | forecasting/scenarios.py:69-89 | the result equals `Results` over the values of the three variants |
| Scenarios.ScenarioEngine.RunMonteCarlo | forecasting/scenarios.py:91-129 | with the first max(n_simulations, 0) injected draws, the result equals `MonteCarlo` of the base values over them |
| Scenarios.ScenarioEngine.RunTrial | forecasting/scenarios.py:105-115 | one trial equals `TrialTotal` of the base values and the draw |
| Scenarios.ScaleOptimistic | forecasting/scenarios.py:44-47 | the copy now holds the optimistic values |
| Scenarios.ScalePessimistic | forecasting/scenarios.py:56-59 | the copy now holds the pessimistic values |
| Scenarios.ScaleByDraw | forecasting/scenarios.py:105-111 | the copy now holds the base values scaled by the draw |
| Scenarios.RunAll | forecasting/scenarios.py:77-89 | the loop over scenario objects equals `Results` of their values |
| Scenarios.RunScenario | forecasting/scenarios.py:79-88 | one scenario's run equals `Evaluate` of its value |
| Scenarios.CopiesAreIsolated | forecasting/scenarios.py:36-65 | mutating the optimistic copy leaves the base object and the Base Case unchanged |
| Sensitivity.Parse | forecasting/sensitivity.py:49-62 | a recognised name is the label of the driver it selects |
| Sensitivity.ParseLabel | forecasting/sensitivity.py:49-62 | every driver's label selects that driver |
| Sensitivity.Recognised | forecasting/sensitivity.py:49-62 | a name is recognised iff it is one of the five labels |
| Sensitivity.DriverOrderComplete | forecasting/sensitivity.py:79-82 | the tornado tests every driver exactly once |
| Sensitivity.Vary | forecasting/sensitivity.py:46-60 | only the named driver is scaled (the margin capped at 100); the others and the optional blocks stay |
| Sensitivity.ZeroVariationIsIdentity | forecasting/sensitivity.py:46-60 | a 0% variation changes nothing while the margin is at most 100 |
| Sensitivity.FcfTotal | forecasting/sensitivity.py:64-66 | the total fails exactly on empty history or no periods |
| Sensitivity.Analysis | forecasting/sensitivity.py:43-68 | a successful analysis is keyed by exactly the variations |
| Sensitivity.AnalysisValues | forecasting/sensitivity.py:44-66 | the name is known, and each variation maps to the varied FCF total `VariedTotal` gives for it |
| Sensitivity.UnknownDriverFails | forecasting/sensitivity.py:61-62 | an unknown name fails whenever there is a variation |
| Sensitivity.KnownDriverFails | forecasting/sensitivity.py:44-66 | a known name fails exactly when there is a variation and no table to sum |
| Sensitivity.ZeroVariationGivesBaseline | forecasting/sensitivity.py:44-66 | varying any driver by 0% gives the baseline total |
| Sensitivity.InsertByImpact | forecasting/sensitivity.py:102-105 | the insertion keeps the order by descending impact and adds exactly the entry |
| Sensitivity.SortByImpact | forecasting/sensitivity.py:102-105 | the output is sorted by descending impact and is a permutation of the input |
| Sensitivity.InsertKeepsOrder | forecasting/sensitivity.py:102-105 | an insertion goes after equal impacts and leaves every other impact class in order |
| Sensitivity.SortIsStable | forecasting/sensitivity.py:102-105 | entries of equal impact keep their input order (list.sort is stable) |
| Sensitivity.BiggerImpactFirst | forecasting/sensitivity.py:102-105 | a bigger swing comes before a smaller one |
| Sensitivity.Entries | forecasting/sensitivity.py:90-99 | one bar per driver |
| Sensitivity.EntriesLabelled | forecasting/sensitivity.py:94-99 | bar k is labelled with driver k, carries the base total, and its low and high values are the totals with that driver varied by -10% and +10% |
| Sensitivity.EntriesShareBase | forecasting/sensitivity.py:97 | every bar carries the same base total |
| Sensitivity.EntriesStep | forecasting/sensitivity.py:90-99 | one more driver appends its ±10% bar |
| Sensitivity.EntriesSucceed | forecasting/sensitivity.py:90-99 | with a history and periods every driver's bar succeeds |
| Sensitivity.Tornado | forecasting/sensitivity.py:70-106 | empty history or no periods fail; a successful table has one bar per driver, sorted by descending impact |
| Sensitivity.TornadoShape | forecasting/sensitivity.py:70-106 | fails exactly on empty history or no periods; otherwise five bars over the same base, sorted by descending impact, a permutation of the per-driver bars |
| Sensitivity.SensitivityAnalyzer.constructor | forecasting/sensitivity.py:18-19 | the analyzer holds the given base object |
| Sensitivity.SensitivityAnalyzer.AnalyzeDriverSensitivity | forecasting/sensitivity.py:21-68 | the loop equals `Analysis` of the base values over the given or default [-20, -10, 0, 10, 20] variations |
| Sensitivity.SensitivityAnalyzer.VariedForecastTotal | forecasting/sensitivity.py:45-66 | one pass equals `VariedTotal`: a copy varied by the named driver, forecast and totalled; an unknown name fails before any forecast |
| Sensitivity.SensitivityAnalyzer.TornadoChartData | forecasting/sensitivity.py:70-106 | the method equals `Tornado` of the base values |
| Sensitivity.ApplyVariation | forecasting/sensitivity.py:48-62 | a recognised name scales exactly that driver in place (the margin capped at 100); an unrecognised name is reported |
| Sensitivity.AnalysisStep | forecasting/sensitivity.py:44-66 | the next variation either fails the analysis with its error or adds its total |
| Sensitivity.AnalysisAfterFailure | forecasting/sensitivity.py:44-66 | a failed analysis stays failed after one more variation |
| Sensitivity.AnalysisFailureSticks | forecasting/sensitivity.py:44-66 | the first failure is the analysis's error |
| ForecastAnalyzer.ChangesFrom | ai_agents/forecast_analyzer.py:19-20 | at most one change per consecutive pair |
| ForecastAnalyzer.ChangesOfNonzero | ai_agents/forecast_analyzer.py:19-20 | without zeros there is exactly one change per pair, each the percentage change |
| ForecastAnalyzer.ChangesOfZeros | ai_agents/forecast_analyzer.py:19-20 | an all-zero series has no usable change |
| ForecastAnalyzer.ChangesSign | ai_agents/forecast_analyzer.py:19-20 | on a positive series each change has the sign of its step |
| ForecastAnalyzer.AverageChange | ai_agents/forecast_analyzer.py:19-22 | 0 without usable changes; otherwise between the smallest and the largest change |
| ForecastAnalyzer.CalculateTrend | ai_agents/forecast_analyzer.py:5-31 | "insufficient data" iff fewer than 2 values; the label is one of the five returned, and never "stability" |
| ForecastAnalyzer.FlatSeriesTrend | ai_agents/forecast_analyzer.py:22-31 | a flat non-zero series is a "significant decrease" |
| ForecastAnalyzer.ZeroSeriesTrend | ai_agents/forecast_analyzer.py:19-31 | an all-zero series is a "significant decrease" |
| ForecastAnalyzer.MonotoneSeriesTrend | ai_agents/forecast_analyzer.py:19-31 | a strictly rising positive series is a growth label; a strictly falling one is a "moderate decrease" |
| ForecastAnalyzer.CalculateVolatility | ai_agents/forecast_analyzer.py:33-58 | "insufficient data" iff fewer than 2 values; otherwise "high", "medium" or "low" |
| ForecastAnalyzer.VarianceLabel | ai_agents/forecast_analyzer.py:51-58 | one of "high", "medium", "low"; a zero mean or a zero variance is "low" |
| ForecastAnalyzer.VolatilityMatchesStd | ai_agents/forecast_analyzer.py:47-58 | the variance-based label equals the label computed from the true standard deviation |
| ForecastAnalyzer.LabelsAgree | ai_agents/forecast_analyzer.py:51-58 | the squared thresholds give the cv thresholds' label |
| ForecastAnalyzer.ConstantSeriesIsCalm | ai_agents/forecast_analyzer.py:47-58 | a constant series is "low" |
| ForecastAnalyzer.ZeroMeanIsLow | ai_agents/forecast_analyzer.py:51 | a zero mean is "low" whatever the spread |
| ForecastAnalyzer.AnalyzeHistoricalData | ai_agents/forecast_analyzer.py:61-91 | fails iff there are no values; min ≤ mean ≤ max, with min and max drawn from the values; non-negative variance; the labels and the values are kept |
| ForecastAnalyzer.SingleValueAnalysis | ai_agents/forecast_analyzer.py:61-91 | one value gives "insufficient data" twice, variance 0 and min = max = mean = the value |
| Stats.SumAppend | forecasting/scenarios.py:82-83 | the sum of two concatenated columns is the sum of their sums |
| Stats.SumBounds | forecasting/scenarios.py:120 | bounds on every value bound the sum by count × bound |
| Stats.SquaredDeviations | forecasting/scenarios.py:121 | the sum of squared deviations is non-negative |
| Stats.Variance | forecasting/scenarios.py:121 | the population variance is non-negative |
| Stats.MinOf | forecasting/scenarios.py:127 | the minimum is a member at most every value |
| Stats.MaxOf | forecasting/scenarios.py:128 | the maximum is a member at least every value |
| Stats.Mean | forecasting/scenarios.py:120 | the mean times the count is the sum |
| Stats.MeanWithin | forecasting/scenarios.py:120 | bounds on every value bound the mean |
| Stats.MeanBetween | forecasting/scenarios.py:120 | the mean lies between the minimum and the maximum |
| Stats.MeanOfConstant | forecasting/scenarios.py:84 | a constant series has that constant as its mean |
| Stats.InsertAsc | forecasting/scenarios.py:122-126 | the insertion keeps the ascending order and adds exactly the value |
| Stats.SortAsc | forecasting/scenarios.py:122-126 | the result is sorted and is a permutation of the input |
| Stats.SortedEnds | forecasting/scenarios.py:122-128 | the sorted values start at the minimum and end at the maximum |
| Stats.PermutationEnds | forecasting/scenarios.py:122-128 | any sorted permutation starts at the minimum and ends at the maximum |
| Stats.Rank | forecasting/scenarios.py:122-126 | the fractional rank p/100·(n-1) lies in [0, n-1] |
| Stats.RankMonotone | forecasting/scenarios.py:122-126 | the rank grows with p |
| Stats.InterpolationBetween | forecasting/scenarios.py:122-126 | the interpolated value lies between its neighbouring sorted values |
| Stats.InterpolateMonotone | forecasting/scenarios.py:122-126 | interpolation over sorted values grows with the rank |
| Stats.Percentile | forecasting/scenarios.py:122-126 | the 0th percentile is the first sorted value and the 100th the last |
| Stats.PercentileMonotone | forecasting/scenarios.py:122-126 | percentiles grow with p |
| Stats.PercentileBounds | forecasting/scenarios.py:122-126 | every percentile lies between the smallest and the largest value |

## Left out

- **I/O and presentation.** Pandas DataFrames, file upload, the database, the UI pages and the language-model agents are not modelled. pandas and the LLM calls are I/O or presentation glue. The history table is a revenue column and an optional COGS column of the same length, and the forecast table is a sequence of records.
- **Floating point.** All arithmetic is on exact reals. Float rounding, NaN and infinity (for example COGS at a 100% margin dividing nothing, or NaN propagating in the totals) are not modelled.
- **Square roots.** Dafny's reals have no square root. The standard deviation appears as the variance wherever the source reports it (`MonteCarloResult.variance`, `HistoricalAnalysis.variance`). Volatility compares squares, and `VolatilityMatchesStd` proves that this gives the same label as the standard deviation.
- **Rounding.** `Calculator.WorkingCapitalFromDrivers` treats Python's `round` as a function parameter; decimal rounding itself is not modelled.
- **Randomness.** `RunMonteCarlo` does not model `np.random.uniform`. The draws are injected as a sequence with at least max(n_simulations, 0) entries. `DrawInRange` states the half-open ranges [0.8, 1.2) and [0.5, 1.5); trials do not require them.
- **Percentile method.** Percentiles follow numpy's default, linear interpolation at rank p/100·(n-1). Other numpy methods are not modelled.
- **Dictionary order and duplicate keys.** Python dictionaries keep insertion order; the `map` results do not. A repeated scenario name or variation overwrites the earlier entry in both.
- **Warning text.** Warnings are data constructors that carry the values their message quotes. The formatted strings, including `:.1f` and `:.2f`, are not reproduced.
- **Industry defaults.** `get_industry_defaults` reads a JSON benchmark file, so only the in-code CapEx and Financing tables are modelled. The benchmark file is not part of this model.
- **COGS column contents.** A COGS column that is present but empty or NaN is not distinguished from a present column of equal length.
- **Loop-body methods.** `ProjectPeriod`, `BuildRow`, `RunTrial`, `RunScenario`, `VariedForecastTotal` and `RunAll` are loop bodies and loops of the source split out as their own methods. The source code is inline.
- **Sorting.** The in-place `list.sort` of the tornado table is the inbuilt stable sort. It is modelled as a stable insertion sort on a sequence (`SortByImpact`), with stability proved (`SortIsStable`). `np.percentile`'s internal sort is `SortAsc` on a sequence.
- **Seasonality truthiness.** An empty seasonality list is falsy in Python. Construction already rejects it, so the model treats seasonality as present or absent.
- **Concurrency.** The source runs scenarios and trials one after another, and so does the model; parallel runs and early abort are not modelled.
