/**
 * Working-capital arithmetic on an annual basis of 365 days.
 * All amounts are annual; no rounding happens inside these formulas.
 */
module Calculator {
  import opened DriverModels

  const DaysInYear: real := 365.0

  /** Receivables: a day's revenue times the days customers take to pay. */
  function AccountsReceivable(annualRevenue: real, dsoDays: real): (ar: real)
    ensures ar * DaysInYear == annualRevenue * dsoDays
  {
    (annualRevenue / DaysInYear) * dsoDays
  }

  /** Payables: a day's cost of goods times the days taken to pay suppliers. */
  function AccountsPayable(annualCogs: real, dpoDays: real): (ap: real)
    ensures ap * DaysInYear == annualCogs * dpoDays
  {
    (annualCogs / DaysInYear) * dpoDays
  }

  /** Inventory: a day's cost of goods times the days stock is held. */
  function Inventory(annualCogs: real, dioDays: real): (inv: real)
    ensures inv * DaysInYear == annualCogs * dioDays
  {
    (annualCogs / DaysInYear) * dioDays
  }

  function NetWorkingCapital(accountsReceivable: real, inventory: real, accountsPayable: real): real {
    accountsReceivable + inventory - accountsPayable
  }

  /** Cash conversion cycle from separate day counts, in the order DSO, DIO, DPO. */
  function Ccc(dsoDays: real, dioDays: real, dpoDays: real): (c: real)
    ensures c == WorkingCapital(dsoDays, dpoDays, dioDays).CccDays()
  {
    dsoDays + dioDays - dpoDays
  }

  /** The reporting summary; money is rounded to 2 places and days to 1, only at output. */
  datatype Summary = Summary(accountsReceivable: real, accountsPayable: real, inventory: real,
                             netWorkingCapital: real, cccDays: real)

  /**
   * The full calculation from drivers.  Rounding goes through `round`, a
   * rounding function taking a value and a number of decimal places;
   * the net working capital is formed from the UNROUNDED components.
   */
  function WorkingCapitalFromDrivers(annualRevenue: real, annualCogs: real, drivers: WorkingCapital,
                                     round: (real, nat) -> real): (s: Summary)
    ensures s.accountsReceivable == round(annualRevenue * drivers.dsoDays / DaysInYear, 2)
    ensures s.accountsPayable == round(annualCogs * drivers.dpoDays / DaysInYear, 2)
    ensures s.inventory == round(annualCogs * drivers.dioDays / DaysInYear, 2)
    ensures s.netWorkingCapital
         == round((annualRevenue * drivers.dsoDays + annualCogs * drivers.dioDays
                   - annualCogs * drivers.dpoDays) / DaysInYear, 2)
    ensures s.cccDays == round(drivers.CccDays(), 1)
  {
    var ar := AccountsReceivable(annualRevenue, drivers.dsoDays);
    var ap := AccountsPayable(annualCogs, drivers.dpoDays);
    var inv := Inventory(annualCogs, drivers.dioDays);
    var nwc := NetWorkingCapital(ar, inv, ap);
    assert ar == annualRevenue * drivers.dsoDays / DaysInYear;
    assert ap == annualCogs * drivers.dpoDays / DaysInYear;
    assert inv == annualCogs * drivers.dioDays / DaysInYear;
    assert nwc == (annualRevenue * drivers.dsoDays + annualCogs * drivers.dioDays
                   - annualCogs * drivers.dpoDays) / DaysInYear;
    Summary(round(ar, 2), round(ap, 2), round(inv, 2), round(nwc, 2), round(drivers.CccDays(), 1))
  }

  /** 3650 of annual revenue collected in 20 days leaves 200 in receivables. */
  lemma ReceivableExample()
    ensures AccountsReceivable(3650.0, 20.0) == 200.0
  {
  }

  /** Each component is linear in its money input and zero when its day count is zero. */
  lemma ComponentsLinear(x: real, y: real, a: real, b: real, days: real)
    ensures AccountsReceivable(a * x + b * y, days)
            == a * AccountsReceivable(x, days) + b * AccountsReceivable(y, days)
    ensures AccountsPayable(a * x + b * y, days)
            == a * AccountsPayable(x, days) + b * AccountsPayable(y, days)
    ensures Inventory(a * x + b * y, days) == a * Inventory(x, days) + b * Inventory(y, days)
    ensures AccountsReceivable(x, 0.0) == 0.0 && AccountsPayable(x, 0.0) == 0.0 && Inventory(x, 0.0) == 0.0
  {
    assert (a * x + b * y) * days == a * (x * days) + b * (y * days);
  }

  /** The net working capital is receivables plus inventory less payables, for every driver set. */
  lemma NetWorkingCapitalIdentity(revenue: real, cogs: real, wc: WorkingCapital)
    ensures NetWorkingCapital(AccountsReceivable(revenue, wc.dsoDays), Inventory(cogs, wc.dioDays),
                              AccountsPayable(cogs, wc.dpoDays)) * DaysInYear
            == revenue * wc.dsoDays + cogs * (wc.dioDays - wc.dpoDays)
  {
    var ar, inv, ap := AccountsReceivable(revenue, wc.dsoDays), Inventory(cogs, wc.dioDays),
                       AccountsPayable(cogs, wc.dpoDays);
    assert (ar + inv - ap) * DaysInYear == ar * DaysInYear + inv * DaysInYear - ap * DaysInYear;
  }
}
