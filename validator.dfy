/**
 * Soft validation: warnings for driver values that are legal but unusual.
 * It never fails and never changes its input; an empty result means nothing
 * looked unusual.  Each warning carries the values its message reports.
 */
module Validator {
  import opened Wrappers
  import opened DriverModels
  import Stats

  datatype Warning =
    | HighDso(dsoDays: real)
    | HighDpo(dpoDays: real)
    | HighDio(dioDays: real)
    | DpoExceedsDsoPlusDio(dpoDays: real, dsoPlusDio: real)
    | NegativeCcc(cccDays: real)
    | LowMargin(grossMarginPct: real)
    | HighMargin(grossMarginPct: real)
    | HighGrowth(revenueGrowthPct: real)
    | SeasonalitySumOff(total: real)
    | HighCapex(capexPctOfRevenue: real)
    | HighLeverage(debtToEquity: real)

  /** The number of checks, one per warning kind. */
  const CheckCount: nat := 11

  /** The position of the warning's check in the order the checks run. */
  function CheckIndex(w: Warning): (k: nat)
    ensures k < CheckCount
  {
    match w
    case HighDso(_) => 0
    case HighDpo(_) => 1
    case HighDio(_) => 2
    case DpoExceedsDsoPlusDio(_, _) => 3
    case NegativeCcc(_) => 4
    case LowMargin(_) => 5
    case HighMargin(_) => 6
    case HighGrowth(_) => 7
    case SeasonalitySumOff(_) => 8
    case HighCapex(_) => 9
    case HighLeverage(_) => 10
  }

  function Abs(x: real): real {
    if x < 0.0 then -x else x
  }

  /**
   * Check k fires on these drivers; every threshold is strict. Only the
   * eleven numbered checks can fire, and the seasonality, CapEx and leverage
   * checks need their blocks to be present.
   */
  predicate Triggered(d: Drivers, k: nat)
    ensures Triggered(d, k) ==> k < CheckCount
    ensures Triggered(d, k) && k == 8 ==> d.revenue.seasonalityFactors.Some?
    ensures Triggered(d, k) && k == 9 ==> d.capex.Some?
    ensures Triggered(d, k) && k == 10 ==> d.financing.Some?
  {
    var wc := d.workingCapital;
    var rev := d.revenue;
    match k
    case 0 => wc.dsoDays > 120.0
    case 1 => wc.dpoDays > 90.0
    case 2 => wc.dioDays > 180.0
    case 3 => wc.dpoDays > wc.dsoDays + wc.dioDays
    case 4 => wc.CccDays() < 0.0
    case 5 => rev.grossMarginPct < 10.0
    case 6 => rev.grossMarginPct > 80.0
    case 7 => rev.revenueGrowthPct > 100.0
    case 8 => rev.seasonalityFactors.Some? && Abs(Stats.Sum(rev.seasonalityFactors.value) - 12.0) > 0.5
    case 9 => d.capex.Some? && d.capex.value.capexPctOfRevenue > 30.0
    case 10 => d.financing.Some? && d.financing.value.debtToEquity > 3.0
    case _ => false
  }

  /** The warning that check k reports, with the values it quotes. */
  function WarningFor(d: Drivers, k: nat): (w: Warning)
    requires k < CheckCount
    ensures CheckIndex(w) == k
  {
    var wc := d.workingCapital;
    var rev := d.revenue;
    match k
    case 0 => HighDso(wc.dsoDays)
    case 1 => HighDpo(wc.dpoDays)
    case 2 => HighDio(wc.dioDays)
    case 3 => DpoExceedsDsoPlusDio(wc.dpoDays, wc.dsoDays + wc.dioDays)
    case 4 => NegativeCcc(wc.CccDays())
    case 5 => LowMargin(rev.grossMarginPct)
    case 6 => HighMargin(rev.grossMarginPct)
    case 7 => HighGrowth(rev.revenueGrowthPct)
    case 8 => SeasonalitySumOff(if rev.seasonalityFactors.Some? then Stats.Sum(rev.seasonalityFactors.value) else 0.0)
    case 9 => HighCapex(if d.capex.Some? then d.capex.value.capexPctOfRevenue else 0.0)
    case 10 => HighLeverage(if d.financing.Some? then d.financing.value.debtToEquity else 0.0)
  }

  /**
   * The warnings, in the order the checks run: each one belongs to a check
   * that fired and quotes that check's values, every check that fires is
   * reported, and no check is reported twice.
   */
  method ValidateDrivers(d: Drivers) returns (warnings: seq<Warning>)
    ensures forall i, j :: 0 <= i < j < |warnings| ==> CheckIndex(warnings[i]) < CheckIndex(warnings[j])
    ensures forall i :: 0 <= i < |warnings| ==>
      Triggered(d, CheckIndex(warnings[i])) && warnings[i] == WarningFor(d, CheckIndex(warnings[i]))
    ensures forall k :: 0 <= k < CheckCount && Triggered(d, k) ==> WarningFor(d, k) in warnings
    ensures |warnings| <= CheckCount
  {
    warnings := WorkingCapitalChecks(d);
    warnings := RevenueChecks(d, warnings);
    warnings := CapexAndFinancingChecks(d, warnings);
    ReportedContract(d, warnings);
  }

  /** The working-capital checks, 0 to 4. */
  method WorkingCapitalChecks(d: Drivers) returns (warnings: seq<Warning>)
    ensures warnings == Reported(d, 5)
  {
    warnings := [];
    ghost var checked: nat := 0;  // how many checks have run
    var wc := d.workingCapital;

    if wc.dsoDays > 120.0 {
      warnings := warnings + [HighDso(wc.dsoDays)];
    }
    checked := checked + 1;
    assert warnings == Reported(d, checked);
    if wc.dpoDays > 90.0 {
      warnings := warnings + [HighDpo(wc.dpoDays)];
    }
    checked := checked + 1;
    assert warnings == Reported(d, checked);
    if wc.dioDays > 180.0 {
      warnings := warnings + [HighDio(wc.dioDays)];
    }
    checked := checked + 1;
    assert warnings == Reported(d, checked);
    if wc.dpoDays > wc.dsoDays + wc.dioDays {
      warnings := warnings + [DpoExceedsDsoPlusDio(wc.dpoDays, wc.dsoDays + wc.dioDays)];
    }
    checked := checked + 1;
    assert warnings == Reported(d, checked);
    var ccc := wc.CccDays();
    if ccc < 0.0 {
      warnings := warnings + [NegativeCcc(ccc)];
    }
    checked := checked + 1;
    assert warnings == Reported(d, checked);
  }

  /** The revenue checks, 5 to 8, after the first five. */
  method RevenueChecks(d: Drivers, before: seq<Warning>) returns (warnings: seq<Warning>)
    requires before == Reported(d, 5)
    ensures warnings == Reported(d, 9)
  {
    warnings := before;
    ghost var checked: nat := 5;
    var rev := d.revenue;
    if rev.grossMarginPct < 10.0 {
      warnings := warnings + [LowMargin(rev.grossMarginPct)];
    }
    checked := checked + 1;
    assert warnings == Reported(d, checked);
    if rev.grossMarginPct > 80.0 {
      warnings := warnings + [HighMargin(rev.grossMarginPct)];
    }
    checked := checked + 1;
    assert warnings == Reported(d, checked);
    if rev.revenueGrowthPct > 100.0 {
      warnings := warnings + [HighGrowth(rev.revenueGrowthPct)];
    }
    checked := checked + 1;
    assert warnings == Reported(d, checked);
    if rev.seasonalityFactors.Some? {
      var total := Stats.Sum(rev.seasonalityFactors.value);
      if Abs(total - 12.0) > 0.5 {
        warnings := warnings + [SeasonalitySumOff(total)];
      }
    }
    checked := checked + 1;
    assert warnings == Reported(d, checked);
  }

  /** The CapEx and leverage checks, 9 and 10, after the first nine. */
  method CapexAndFinancingChecks(d: Drivers, before: seq<Warning>) returns (warnings: seq<Warning>)
    requires before == Reported(d, 9)
    ensures warnings == Reported(d, CheckCount)
  {
    warnings := before;
    ghost var checked: nat := 9;
    if d.capex.Some? && d.capex.value.capexPctOfRevenue > 30.0 {
      warnings := warnings + [HighCapex(d.capex.value.capexPctOfRevenue)];
    }
    checked := checked + 1;
    assert warnings == Reported(d, checked);
    if d.financing.Some? {
      if d.financing.value.debtToEquity > 3.0 {
        warnings := warnings + [HighLeverage(d.financing.value.debtToEquity)];
      }
    }
    checked := checked + 1;
    assert warnings == Reported(d, checked);
  }

  /** What the first n checks report, in order: at most one warning per check. */
  function Reported(d: Drivers, n: nat): (r: seq<Warning>)
    requires n <= CheckCount
    ensures |r| <= n
  {
    if n == 0 then []
    else Reported(d, n - 1) + (if Triggered(d, n - 1) then [WarningFor(d, n - 1)] else [])
  }

  /** The full report of all checks meets the validator's contract. */
  lemma ReportedContract(d: Drivers, warnings: seq<Warning>)
    requires warnings == Reported(d, CheckCount)
    ensures forall i, j :: 0 <= i < j < |warnings| ==> CheckIndex(warnings[i]) < CheckIndex(warnings[j])
    ensures forall i :: 0 <= i < |warnings| ==>
      Triggered(d, CheckIndex(warnings[i])) && warnings[i] == WarningFor(d, CheckIndex(warnings[i]))
    ensures forall k :: 0 <= k < CheckCount && Triggered(d, k) ==> WarningFor(d, k) in warnings
    ensures |warnings| <= CheckCount
  {
    ReportedInOrder(d, CheckCount);
  }

  /** Exactly the fired ones among the first n checks are reported, in order and once each. */
  ghost predicate Invariant(d: Drivers, warnings: seq<Warning>, n: nat)
    requires n <= CheckCount
  {
    |warnings| <= n
    && (forall i, j :: 0 <= i < j < |warnings| ==> CheckIndex(warnings[i]) < CheckIndex(warnings[j]))
    && (forall i :: 0 <= i < |warnings| ==>
          CheckIndex(warnings[i]) < n && Triggered(d, CheckIndex(warnings[i]))
          && warnings[i] == WarningFor(d, CheckIndex(warnings[i])))
    && (forall k :: 0 <= k < n && Triggered(d, k) ==> WarningFor(d, k) in warnings)
  }

  /** After the first n checks: exactly the fired ones among them are reported, in order. */
  lemma {:induction false} ReportedInOrder(d: Drivers, n: nat)
    requires n <= CheckCount
    ensures Invariant(d, Reported(d, n), n)
  {
    if n > 0 {
      ReportedInOrder(d, n - 1);
      var prev := Reported(d, n - 1);
      if Triggered(d, n - 1) {
        assert Reported(d, n) == prev + [WarningFor(d, n - 1)];
        InvariantFired(d, prev, n - 1);
      } else {
        assert Reported(d, n) == prev;
        InvariantQuiet(d, prev, n - 1);
      }
    }
  }

  /** A fired check m appends its warning after those of the first m checks. */
  lemma InvariantFired(d: Drivers, warnings: seq<Warning>, m: nat)
    requires m < CheckCount && Invariant(d, warnings, m) && Triggered(d, m)
    ensures Invariant(d, warnings + [WarningFor(d, m)], m + 1)
  {
    var w := warnings + [WarningFor(d, m)];
    forall i | 0 <= i < |w|
      ensures CheckIndex(w[i]) < m + 1 && Triggered(d, CheckIndex(w[i])) && w[i] == WarningFor(d, CheckIndex(w[i]))
    {
      if i < |warnings| { assert w[i] == warnings[i]; }
    }
    forall i, j | 0 <= i < j < |w|
      ensures CheckIndex(w[i]) < CheckIndex(w[j])
    {
      assert w[i] == warnings[i];
      if j < |warnings| { assert w[j] == warnings[j]; }
    }
  }

  /** A quiet check m leaves the warnings of the first m checks as they are. */
  lemma InvariantQuiet(d: Drivers, warnings: seq<Warning>, m: nat)
    requires m < CheckCount && Invariant(d, warnings, m) && !Triggered(d, m)
    ensures Invariant(d, warnings, m + 1)
  {
  }

  /** "DPO exceeds DSO + DIO" fires exactly when "negative CCC" fires: both are DPO > DSO + DIO. */
  lemma DpoWarningIffNegativeCcc(d: Drivers)
    ensures Triggered(d, 3) <==> Triggered(d, 4)
  {
  }

  /** The low-margin and high-margin warnings never fire together. */
  lemma MarginWarningsExclusive(d: Drivers)
    ensures !(Triggered(d, 5) && Triggered(d, 6))
  {
  }

  /** A value exactly at a threshold raises nothing. */
  lemma ThresholdsAreStrict(d: Drivers)
    requires d.workingCapital.dsoDays == 120.0 && d.workingCapital.dpoDays == 90.0
    requires d.workingCapital.dioDays == 180.0 && d.revenue.revenueGrowthPct == 100.0
    ensures !Triggered(d, 0) && !Triggered(d, 1) && !Triggered(d, 2) && !Triggered(d, 7)
  {
  }
}
