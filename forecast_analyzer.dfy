/**
 * Statistics of a historical series: a trend label from the average
 * period-over-period percentage change, a volatility label from the
 * coefficient of variation, and a summary record.
 *
 * The standard deviation is the square root of the population variance.
 * The model keeps the variance and compares squares, which gives the same
 * labels (VolatilityMatchesStd) without a square root.
 */
module ForecastAnalyzer {
  import opened Wrappers
  import Stats

  function Abs(x: real): real {
    if x >= 0.0 then x else -x
  }

  /** The percentage changes from index i on, skipping every change whose predecessor is 0. */
  function ChangesFrom(values: seq<real>, i: nat): (r: seq<real>)
    requires 1 <= i
    ensures |r| <= if i < |values| then |values| - i else 0
    decreases |values| - i
  {
    if i >= |values| then []
    else
      var rest := ChangesFrom(values, i + 1);
      if values[i - 1] != 0.0 then [(values[i] - values[i - 1]) / Abs(values[i - 1]) * 100.0] + rest
      else rest
  }

  function Changes(values: seq<real>): seq<real> {
    ChangesFrom(values, 1)
  }

  /** Percentage change from a non-zero value a to b. */
  function PercentChange(a: real, b: real): real
    requires a != 0.0
  {
    (b - a) / Abs(a) * 100.0
  }

  /** Without a zero value, there is one change per consecutive pair, in order. */
  lemma {:induction false} ChangesOfNonzero(values: seq<real>, i: nat)
    requires 1 <= i <= |values|
    requires forall k :: 0 <= k < |values| ==> values[k] != 0.0
    ensures |ChangesFrom(values, i)| == |values| - i
    ensures forall k :: 0 <= k < |values| - i ==>
              ChangesFrom(values, i)[k] == PercentChange(values[i + k - 1], values[i + k])
    decreases |values| - i
  {
    if i < |values| {
      ChangesOfNonzero(values, i + 1);
    }
  }

  /** A series of zeros has no usable change at all. */
  lemma {:induction false} ChangesOfZeros(values: seq<real>, i: nat)
    requires 1 <= i
    requires forall k :: 0 <= k < |values| ==> values[k] == 0.0
    ensures ChangesFrom(values, i) == []
    decreases |values| - i
  {
    if i < |values| {
      ChangesOfZeros(values, i + 1);
    }
  }

  /** On a series of positive values, every change has the sign of the step it measures. */
  lemma {:induction false} ChangesSign(values: seq<real>, i: nat, rising: bool)
    requires 1 <= i
    requires forall k :: 0 <= k < |values| ==> values[k] > 0.0
    requires forall k :: 1 <= k < |values| ==> if rising then values[k - 1] < values[k] else values[k] < values[k - 1]
    ensures forall k :: 0 <= k < |ChangesFrom(values, i)| ==>
              if rising then ChangesFrom(values, i)[k] > 0.0 else ChangesFrom(values, i)[k] < 0.0
    decreases |values| - i
  {
    if i < |values| {
      ChangesSign(values, i + 1, rising);
      var a, b := values[i - 1], values[i];
      assert Abs(a) == a;
      if rising {
        Stats.DivLe(0.0, b - a, a);
        assert (b - a) / a > 0.0;
      } else {
        Stats.DivLe(b - a, 0.0, a);
        assert (b - a) / a < 0.0;
      }
    }
  }

  /** The average change, 0 when there is no usable change; it lies between the smallest and the largest change. */
  function AverageChange(values: seq<real>): (r: real)
    ensures |Changes(values)| == 0 ==> r == 0.0
    ensures |Changes(values)| > 0 ==> Stats.MinOf(Changes(values)) <= r <= Stats.MaxOf(Changes(values))
  {
    var changes := Changes(values);
    if |changes| > 0 then Stats.MeanBetween(changes); Stats.Mean(changes) else 0.0
  }

  /**
   * The trend label. An average change of exactly 0, including no usable
   * change, is labelled a significant decrease; there is no stable label.
   */
  function CalculateTrend(values: seq<real>): (r: string)
    ensures r == "insufficient data" <==> |values| < 2
    ensures r in {"insufficient data", "significant growth", "moderate growth", "moderate decrease", "significant decrease"}
    ensures r != "stability"
  {
    if |values| < 2 then "insufficient data"
    else
      var avg := AverageChange(values);
      if avg > 15.0 then "significant growth"
      else if avg > 0.0 then "moderate growth"
      else if avg < 0.0 then "moderate decrease"
      else "significant decrease"
  }

  /** A flat non-zero series has every change 0, so it is labelled a significant decrease. */
  lemma FlatSeriesTrend(values: seq<real>, c: real)
    requires |values| >= 2 && c != 0.0
    requires forall k :: 0 <= k < |values| ==> values[k] == c
    ensures CalculateTrend(values) == "significant decrease"
  {
    ChangesOfNonzero(values, 1);
    var changes := Changes(values);
    forall k | 0 <= k < |changes|
      ensures changes[k] == 0.0
    {
      assert changes[k] == PercentChange(values[k], values[k + 1]);
    }
    Stats.MeanOfConstant(changes, 0.0);
  }

  /** A series of zeros has no usable change and is labelled a significant decrease. */
  lemma ZeroSeriesTrend(values: seq<real>)
    requires |values| >= 2
    requires forall k :: 0 <= k < |values| ==> values[k] == 0.0
    ensures CalculateTrend(values) == "significant decrease"
  {
    ChangesOfZeros(values, 1);
  }

  /** A strictly rising positive series is labelled growth; a strictly falling one a moderate decrease. */
  lemma MonotoneSeriesTrend(values: seq<real>, rising: bool)
    requires |values| >= 2
    requires forall k :: 0 <= k < |values| ==> values[k] > 0.0
    requires forall k :: 1 <= k < |values| ==> if rising then values[k - 1] < values[k] else values[k] < values[k - 1]
    ensures rising ==> CalculateTrend(values) in {"significant growth", "moderate growth"}
    ensures !rising ==> CalculateTrend(values) == "moderate decrease"
  {
    ChangesOfNonzero(values, 1);
    ChangesSign(values, 1, rising);
    var changes := Changes(values);
    assert |changes| == |values| - 1 > 0;
    if rising {
      ChangesPositiveMean(changes);
    } else {
      ChangesNegativeMean(changes);
    }
  }

  lemma ChangesPositiveMean(changes: seq<real>)
    requires |changes| > 0
    requires forall k :: 0 <= k < |changes| ==> changes[k] > 0.0
    ensures Stats.Mean(changes) > 0.0
  {
    var lo := Stats.MinOf(changes);
    Stats.MeanWithin(changes, lo, Stats.MaxOf(changes));
  }

  lemma ChangesNegativeMean(changes: seq<real>)
    requires |changes| > 0
    requires forall k :: 0 <= k < |changes| ==> changes[k] < 0.0
    ensures Stats.Mean(changes) < 0.0
  {
    var hi := Stats.MaxOf(changes);
    Stats.MeanWithin(changes, Stats.MinOf(changes), hi);
  }

  /**
   * The volatility label by the coefficient of variation cv = std / |mean| * 100:
   * above 20 high, above 10 medium, else low; a zero mean counts as cv 0.
   * Stated on the variance: cv > t exactly when variance > (t/100 * |mean|)^2.
   */
  function CalculateVolatility(values: seq<real>): (r: string)
    ensures r == "insufficient data" <==> |values| < 2
    ensures r in {"insufficient data", "high", "medium", "low"}
  {
    if |values| < 2 then "insufficient data"
    else VarianceLabel(Stats.Mean(values), Stats.Variance(values))
  }

  /**
   * The label from a mean and a variance: its squared thresholds are 20% and
   * 10% of |mean|. A zero mean, or no spread at all, is labelled low.
   */
  function VarianceLabel(m: real, v: real): (r: string)
    ensures r in {"high", "medium", "low"}
    ensures m == 0.0 ==> r == "low"
    ensures v <= 0.0 ==> r == "low"
  {
    var high, medium := 0.2 * Abs(m), 0.1 * Abs(m);
    Stats.SquareNonneg(medium);
    Stats.SquareNonneg(high);
    if m != 0.0 && v > high * high then "high"
    else if m != 0.0 && v > medium * medium then "medium"
    else "low"
  }

  /** The label computed from a standard deviation and the coefficient of variation, as the formula reads. */
  function VolatilityFromStd(values: seq<real>, std: real): string
    requires |values| >= 2
  {
    CvLabel(Stats.Mean(values), std)
  }

  function CvLabel(m: real, std: real): string {
    var cv := if m != 0.0 then std / Abs(m) * 100.0 else 0.0;
    if cv > 20.0 then "high" else if cv > 10.0 then "medium" else "low"
  }

  /** For non-negative a and positive b, a > b exactly when a*a > b*b. */
  lemma SquareMonotone(a: real, b: real)
    requires a >= 0.0 && b > 0.0
    ensures a > b <==> a * a > b * b
  {
    if a > b {
      Stats.MulLeRight(b, a, a);
      Stats.MulLeRight(b, a, b);
      assert a * a > b * b by {
        assert a * a >= b * a && b * a >= b * b;
        assert (a - b) * b > 0.0 by { Stats.MulNonneg(a - b, b); assert (a - b) * b != 0.0; }
      }
    } else {
      Stats.MulLeRight(a, b, a);
      Stats.MulLeRight(a, b, b);
    }
  }

  /** cv / 100 > t exactly when std > t * |mean|, once mean is not 0. */
  lemma CvThreshold(std: real, am: real, t: real)
    requires am > 0.0 && t > 0.0
    ensures std / am * 100.0 > t * 100.0 <==> std > t * am
  {
    var q := std / am;
    assert q * am == std;
    if q > t {
      Stats.MulLeRight(t, q, am);
      assert (q - t) * am > 0.0 by { Stats.MulNonneg(q - t, am); assert (q - t) * am != 0.0; }
    } else {
      Stats.MulLeRight(q, t, am);
    }
  }

  /** The squared test gives the label the coefficient of variation gives, for the true standard deviation. */
  lemma VolatilityMatchesStd(values: seq<real>, std: real)
    requires |values| >= 2
    requires std >= 0.0 && std * std == Stats.Variance(values)
    ensures CalculateVolatility(values) == VolatilityFromStd(values, std)
  {
    LabelsAgree(Stats.Mean(values), Stats.Variance(values), std);
  }

  /** For a standard deviation std of variance v, the squared test and the cv test give the same label. */
  lemma LabelsAgree(m: real, v: real, std: real)
    requires std >= 0.0 && std * std == v
    ensures VarianceLabel(m, v) == CvLabel(m, std)
  {
    if m != 0.0 {
      var am := Abs(m);
      CvThreshold(std, am, 0.2);
      CvThreshold(std, am, 0.1);
      SquareMonotone(std, 0.2 * am);
      SquareMonotone(std, 0.1 * am);
    }
  }

  /** A constant series does not vary. */
  lemma ConstantSeriesIsCalm(values: seq<real>, c: real)
    requires |values| >= 2
    requires forall k :: 0 <= k < |values| ==> values[k] == c
    ensures CalculateVolatility(values) == "low"
  {
    Stats.MeanOfConstant(values, c);
    ConstantDeviations(values, c);
  }

  lemma {:induction false} ConstantDeviations(values: seq<real>, c: real)
    requires forall k :: 0 <= k < |values| ==> values[k] == c
    ensures Stats.SquaredDeviations(values, c) == 0.0
  {
    if values != [] {
      ConstantDeviations(values[1..], c);
    }
  }

  /** A series whose mean is 0 is labelled low whatever its spread. */
  lemma ZeroMeanIsLow(values: seq<real>)
    requires |values| >= 2 && Stats.Mean(values) == 0.0
    ensures CalculateVolatility(values) == "low"
  {
  }

  /** The summary record; the spread is reported as the variance (the square of the standard deviation). */
  datatype HistoricalAnalysis = HistoricalAnalysis(
    trend: string, volatility: string, mean: real, variance: real, min: real, max: real, values: seq<real>)

  /** The minimum and maximum of no values are undefined. */
  datatype AnalysisError = NoValues

  function AnalyzeHistoricalData(values: seq<real>): (r: Result<HistoricalAnalysis, AnalysisError>)
    ensures r.Err? <==> |values| == 0
    ensures r.Ok? ==> r.value.min <= r.value.mean <= r.value.max
    ensures r.Ok? ==> r.value.min in values && r.value.max in values
    ensures r.Ok? ==> r.value.variance >= 0.0
    ensures r.Ok? ==> r.value.values == values
    ensures r.Ok? ==> r.value.trend == CalculateTrend(values) && r.value.volatility == CalculateVolatility(values)
  {
    if |values| == 0 then Err(NoValues)
    else
      Stats.MeanBetween(values);
      Ok(HistoricalAnalysis(CalculateTrend(values), CalculateVolatility(values),
                            Stats.Mean(values), Stats.Variance(values),
                            Stats.MinOf(values), Stats.MaxOf(values), values))
  }

  /** With one value the labels are both "insufficient data" and the statistics collapse onto that value. */
  lemma SingleValueAnalysis(x: real)
    ensures AnalyzeHistoricalData([x]) == Ok(HistoricalAnalysis("insufficient data", "insufficient data",
                                                                x, 0.0, x, x, [x]))
  {
    assert [x][1..] == [];
    assert Stats.Sum([x]) == x;
    assert Stats.Mean([x]) == x;
    assert Stats.SquaredDeviations([x], x) == 0.0;
  }
}
