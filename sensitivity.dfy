/**
 * Sensitivity analysis: how the total free cash flow moves when one driver
 * is scaled by a percentage, and the tornado-chart table of the five
 * drivers' +/-10% swings, largest swing first.
 */
module Sensitivity {
  import opened Wrappers
  import opened DriverModels
  import opened DriverBased

  /** The five drivers the analysis can vary. */
  datatype Driver = Dso | Dpo | Dio | Growth | Margin

  /** The drivers in the order the tornado table tests them. */
  const DriverOrder: seq<Driver> := [Dso, Dpo, Dio, Growth, Margin]

  /** The percentage changes tried when the caller gives none. */
  const DefaultVariations: seq<real> := [-20.0, -10.0, 0.0, 10.0, 20.0]

  /** The name by which callers select a driver. */
  function Label(k: Driver): string {
    match k
    case Dso => "dso_days"
    case Dpo => "dpo_days"
    case Dio => "dio_days"
    case Growth => "revenue_growth_pct"
    case Margin => "gross_margin_pct"
  }

  /** The driver a name selects, if it selects one. */
  function Parse(name: string): (r: Option<Driver>)
    ensures r.Some? ==> Label(r.value) == name
  {
    if name == "dso_days" then Some(Dso)
    else if name == "dpo_days" then Some(Dpo)
    else if name == "dio_days" then Some(Dio)
    else if name == "revenue_growth_pct" then Some(Growth)
    else if name == "gross_margin_pct" then Some(Margin)
    else None
  }

  /** Every driver's own name selects it, so a name is recognised exactly when it is some driver's label. */
  lemma ParseLabel(k: Driver)
    ensures Parse(Label(k)) == Some(k)
  {
    match k
    case Dso =>
    case Dpo => assert "dpo_days"[1] != "dso_days"[1];
    case Dio => assert "dio_days"[1] != "dso_days"[1] && "dio_days"[1] != "dpo_days"[1];
    case Growth => assert |"revenue_growth_pct"| != 8;
    case Margin => assert |"gross_margin_pct"| != 8 && |"gross_margin_pct"| != |"revenue_growth_pct"|;
  }

  lemma Recognised(name: string)
    ensures Parse(name).Some? <==> exists k: Driver :: Label(k) == name
  {
    if exists k: Driver :: Label(k) == name {
      var k: Driver :| Label(k) == name;
      ParseLabel(k);
    }
  }

  /** The tornado table tests every driver exactly once. */
  lemma DriverOrderComplete()
    ensures forall k: Driver :: k in DriverOrder
    ensures forall i, j :: 0 <= i < j < |DriverOrder| ==> DriverOrder[i] != DriverOrder[j]
  {
    forall k: Driver
      ensures k in DriverOrder
    {
      match k
      case Dso => assert DriverOrder[0] == k;
      case Dpo => assert DriverOrder[1] == k;
      case Dio => assert DriverOrder[2] == k;
      case Growth => assert DriverOrder[3] == k;
      case Margin => assert DriverOrder[4] == k;
    }
  }

  function Multiplier(pct: real): real {
    1.0 + pct / 100.0
  }

  function Min(a: real, b: real): real {
    if a <= b then a else b
  }

  /** The current value of driver k. */
  function Get(d: Drivers, k: Driver): real {
    match k
    case Dso => d.workingCapital.dsoDays
    case Dpo => d.workingCapital.dpoDays
    case Dio => d.workingCapital.dioDays
    case Growth => d.revenue.revenueGrowthPct
    case Margin => d.revenue.grossMarginPct
  }

  /**
   * Scale driver k by m; the gross margin is capped at 100%. No other
   * driver changes, nor do seasonality and the optional blocks.
   */
  function Vary(d: Drivers, k: Driver, m: real): (v: Drivers)
    ensures Get(v, k) == (if k == Margin then Min(100.0, Get(d, k) * m) else Get(d, k) * m)
    ensures forall other: Driver :: other != k ==> Get(v, other) == Get(d, other)
    ensures v.revenue.seasonalityFactors == d.revenue.seasonalityFactors
    ensures v.capex == d.capex && v.financing == d.financing && v.industry == d.industry
    ensures k == Margin ==> v.revenue.grossMarginPct <= 100.0
  {
    var wc, rev := d.workingCapital, d.revenue;
    match k
    case Dso => d.(workingCapital := wc.(dsoDays := wc.dsoDays * m))
    case Dpo => d.(workingCapital := wc.(dpoDays := wc.dpoDays * m))
    case Dio => d.(workingCapital := wc.(dioDays := wc.dioDays * m))
    case Growth => d.(revenue := rev.(revenueGrowthPct := rev.revenueGrowthPct * m))
    case Margin => d.(revenue := rev.(grossMarginPct := Min(100.0, rev.grossMarginPct * m)))
  }

  /** A 0% variation leaves the drivers as they are (the margin as well, while it is at most 100%). */
  lemma ZeroVariationIsIdentity(d: Drivers, k: Driver)
    requires d.revenue.grossMarginPct <= 100.0
    ensures Vary(d, k, Multiplier(0.0)) == d
  {
  }

  /** Total free cash flow over the forecast of drivers d. */
  function FcfTotal(d: Drivers, history: History, periods: int): (r: Result<real, EngineError>)
    ensures r.Err? <==> |history.revenue| == 0 || periods <= 0
  {
    match Forecast(d, history, periods)
    case Err(e) => Err(e)
    case Ok(rows) => ColumnSum(rows, FreeCashflowColumn)
  }

  /**
   * The total free cash flow with the named driver varied by pct percent;
   * an unknown name fails before any forecast.
   */
  function VariedTotal(d: Drivers, history: History, name: string, pct: real, periods: int)
    : Result<real, EngineError>
  {
    match Parse(name)
    case None => Err(UnknownDriver(name))
    case Some(k) => FcfTotal(Vary(d, k, Multiplier(pct)), history, periods)
  }

  /**
   * Variation percentage to total free cash flow, over the variations tried
   * so far; an unknown name fails on the first variation, before any forecast.
   */
  function Analysis(d: Drivers, history: History, name: string, variations: seq<real>, periods: int)
    : (r: Result<map<real, real>, EngineError>)
    ensures r.Ok? ==> r.value.Keys == set x | x in variations
    decreases |variations|
  {
    if |variations| == 0 then Ok(map[])
    else
      var pct := variations[|variations| - 1];
      match Analysis(d, history, name, variations[..|variations| - 1], periods)
      case Err(e) => Err(e)
      case Ok(m) =>
        match VariedTotal(d, history, name, pct, periods)
        case Err(e) => Err(e)
        case Ok(total) =>
          assert variations == variations[..|variations| - 1] + [pct];
          Ok(m[pct := total])
  }

  /** Every variation maps to the total free cash flow with the named driver varied by it. */
  lemma {:induction false} AnalysisValues(d: Drivers, history: History, name: string, variations: seq<real>, periods: int)
    requires Analysis(d, history, name, variations, periods).Ok?
    ensures Parse(name).Some? || |variations| == 0
    ensures forall x :: x in variations ==>
              VariedTotal(d, history, name, x, periods) == Ok(Analysis(d, history, name, variations, periods).value[x])
    decreases |variations|
  {
    if |variations| > 0 {
      var prefix, pct := variations[..|variations| - 1], variations[|variations| - 1];
      var m := Analysis(d, history, name, prefix, periods).value;
      var total := VariedTotal(d, history, name, pct, periods).value;
      var whole := Analysis(d, history, name, variations, periods).value;
      assert whole == m[pct := total];
      AnalysisValues(d, history, name, prefix, periods);
      forall x | x in variations
        ensures VariedTotal(d, history, name, x, periods) == Ok(whole[x])
      {
        if x != pct {
          assert x in prefix by { assert variations == prefix + [pct]; }
        }
      }
    }
  }

  /** An unknown driver name fails whenever there is a variation to try, whatever the history. */
  lemma {:induction false} UnknownDriverFails(d: Drivers, history: History, name: string, variations: seq<real>, periods: int)
    requires Parse(name).None?
    ensures Analysis(d, history, name, variations, periods)
            == if |variations| == 0 then Ok(map[]) else Err(UnknownDriver(name))
    decreases |variations|
  {
    if |variations| > 0 {
      UnknownDriverFails(d, history, name, variations[..|variations| - 1], periods);
    }
  }

  /** For a known driver the analysis fails exactly when there is a variation and no forecast table to sum. */
  lemma {:induction false} KnownDriverFails(d: Drivers, history: History, name: string, variations: seq<real>, periods: int)
    requires Parse(name).Some?
    ensures Analysis(d, history, name, variations, periods).Err?
            <==> |variations| > 0 && (|history.revenue| == 0 || periods <= 0)
    decreases |variations|
  {
    if |variations| > 0 {
      KnownDriverFails(d, history, name, variations[..|variations| - 1], periods);
    }
  }

  /** Varying any driver by 0% gives the baseline's own total free cash flow. */
  lemma ZeroVariationGivesBaseline(d: Drivers, history: History, k: Driver, periods: int)
    requires d.revenue.grossMarginPct <= 100.0
    requires FcfTotal(d, history, periods).Ok?
    ensures Analysis(d, history, Label(k), [0.0], periods) == Ok(map[0.0 := FcfTotal(d, history, periods).value])
  {
    ParseLabel(k);
    ZeroVariationIsIdentity(d, k);
    assert [0.0][..0] == [];
  }

  /** One bar of the tornado chart. */
  datatype TornadoEntry = TornadoEntry(driverName: string, lowValue: real, baseValue: real, highValue: real)

  /** The swing of a bar: the distance between its high and low totals. */
  function Impact(e: TornadoEntry): real {
    if e.highValue >= e.lowValue then e.highValue - e.lowValue else e.lowValue - e.highValue
  }

  predicate SortedByImpact(s: seq<TornadoEntry>) {
    forall i, j :: 0 <= i < j < |s| ==> Impact(s[i]) >= Impact(s[j])
  }

  /** Insert x after every entry whose impact is at least its own. */
  function InsertByImpact(x: TornadoEntry, s: seq<TornadoEntry>): (r: seq<TornadoEntry>)
    requires SortedByImpact(s)
    ensures SortedByImpact(r)
    ensures multiset(r) == multiset(s) + multiset{x}
    ensures r[0] == if s == [] || Impact(s[0]) < Impact(x) then x else s[0]
  {
    if s == [] then [x]
    else if Impact(s[0]) < Impact(x) then [x] + s
    else
      var tail := InsertByImpact(x, s[1..]);
      assert s == [s[0]] + s[1..];
      assert multiset([s[0]] + tail) == multiset{s[0]} + multiset(tail);
      SortedByImpactCons(s[0], tail);
      [s[0]] + tail
  }

  lemma SortedByImpactCons(h: TornadoEntry, t: seq<TornadoEntry>)
    requires SortedByImpact(t) && (t == [] || Impact(h) >= Impact(t[0]))
    ensures SortedByImpact([h] + t)
  {
    var r := [h] + t;
    forall i, j | 0 <= i < j < |r|
      ensures Impact(r[i]) >= Impact(r[j])
    {
      if i == 0 {
        assert Impact(h) >= Impact(t[0]) >= Impact(t[j - 1]);
      } else {
        assert r[i] == t[i - 1] && r[j] == t[j - 1];
      }
    }
  }

  /** Largest impact first; entries of equal impact keep their order, as a stable sort leaves them. */
  function SortByImpact(s: seq<TornadoEntry>): (r: seq<TornadoEntry>)
    ensures SortedByImpact(r)
    ensures multiset(r) == multiset(s)
    decreases |s|
  {
    if s == [] then []
    else
      assert s == s[..|s| - 1] + [s[|s| - 1]];
      InsertByImpact(s[|s| - 1], SortByImpact(s[..|s| - 1]))
  }

  /** The entries of impact k, in order. */
  function WithImpact(s: seq<TornadoEntry>, k: real): seq<TornadoEntry> {
    if s == [] then []
    else (if Impact(s[0]) == k then [s[0]] else []) + WithImpact(s[1..], k)
  }

  lemma {:induction false} WithImpactAppend(a: seq<TornadoEntry>, b: seq<TornadoEntry>, k: real)
    ensures WithImpact(a + b, k) == WithImpact(a, k) + WithImpact(b, k)
  {
    if a == [] {
      assert a + b == b;
    } else {
      var head := if Impact(a[0]) == k then [a[0]] else [];
      assert (a + b)[0] == a[0];
      assert (a + b)[1..] == a[1..] + b;
      assert WithImpact(a + b, k) == head + WithImpact(a[1..] + b, k);
      WithImpactAppend(a[1..], b, k);
      assert WithImpact(a, k) == head + WithImpact(a[1..], k);
    }
  }

  lemma {:induction false} NoneWithImpact(s: seq<TornadoEntry>, k: real)
    requires forall i :: 0 <= i < |s| ==> Impact(s[i]) < k
    ensures WithImpact(s, k) == []
  {
    if s != [] {
      NoneWithImpact(s[1..], k);
    }
  }

  /** Inserting x puts it after the entries of its own impact and disturbs no other impact class. */
  lemma {:induction false} InsertKeepsOrder(x: TornadoEntry, s: seq<TornadoEntry>, k: real)
    requires SortedByImpact(s)
    ensures WithImpact(InsertByImpact(x, s), k)
            == WithImpact(s, k) + (if Impact(x) == k then [x] else [])
  {
    if s == [] {
    } else if Impact(s[0]) < Impact(x) {
      var r := [x] + s;
      assert InsertByImpact(x, s) == r;
      assert r[0] == x && r[1..] == s;
      if Impact(x) == k {
        NoneWithImpact(s, k);
        assert WithImpact(r, k) == [x] + WithImpact(s, k);
      } else {
        assert WithImpact(r, k) == WithImpact(s, k);
      }
    } else {
      var tail := InsertByImpact(x, s[1..]);
      var r := [s[0]] + tail;
      assert InsertByImpact(x, s) == r;
      assert r[0] == s[0] && r[1..] == tail;
      InsertKeepsOrder(x, s[1..], k);
      var head := if Impact(s[0]) == k then [s[0]] else [];
      assert WithImpact(r, k) == head + WithImpact(tail, k);
      assert WithImpact(s, k) == head + WithImpact(s[1..], k);
    }
  }

  /** The sort is stable: for every impact, the entries of that impact appear in their input order. */
  lemma {:induction false} SortIsStable(s: seq<TornadoEntry>, k: real)
    ensures WithImpact(SortByImpact(s), k) == WithImpact(s, k)
    decreases |s|
  {
    if s != [] {
      var prefix, last := s[..|s| - 1], s[|s| - 1];
      var own := if Impact(last) == k then [last] else [];
      calc {
        WithImpact(SortByImpact(s), k);
        WithImpact(InsertByImpact(last, SortByImpact(prefix)), k);
        { InsertKeepsOrder(last, SortByImpact(prefix), k); }
        WithImpact(SortByImpact(prefix), k) + own;
        { SortIsStable(prefix, k); }
        WithImpact(prefix, k) + own;
        { WithImpactSnoc(prefix, last, k); }
        WithImpact(prefix + [last], k);
        { assert s == prefix + [last]; }
        WithImpact(s, k);
      }
    }
  }

  lemma WithImpactSnoc(prefix: seq<TornadoEntry>, last: TornadoEntry, k: real)
    ensures WithImpact(prefix + [last], k) == WithImpact(prefix, k) + (if Impact(last) == k then [last] else [])
  {
    WithImpactAppend(prefix, [last], k);
    assert [last][1..] == [];
  }

  /** A bigger swing sorts ahead of a smaller one. */
  lemma BiggerImpactFirst(s: seq<TornadoEntry>, i: nat, j: nat)
    requires i < |SortByImpact(s)| && j < |SortByImpact(s)|
    requires Impact(SortByImpact(s)[i]) > Impact(SortByImpact(s)[j])
    ensures i < j
  {
  }

  /** The +/-10% swings of the named drivers, each against the shared base total. */
  function Entries(d: Drivers, history: History, periods: int, base: real, drivers: seq<Driver>)
    : (r: Result<seq<TornadoEntry>, EngineError>)
    ensures r.Ok? ==> |r.value| == |drivers|
    decreases |drivers|
  {
    if |drivers| == 0 then Ok([])
    else
      var name := Label(drivers[|drivers| - 1]);
      match Entries(d, history, periods, base, drivers[..|drivers| - 1])
      case Err(e) => Err(e)
      case Ok(entries) =>
        match Analysis(d, history, name, [-10.0, 10.0], periods)
        case Err(e) => Err(e)
        case Ok(m) =>
          assert -10.0 in [-10.0, 10.0] && 10.0 in [-10.0, 10.0];
          Ok(entries + [TornadoEntry(name, m[-10.0], base, m[10.0])])
  }

  /**
   * The k-th bar is labelled with the k-th driver, carries the shared base
   * total, and its low and high values are the totals with that driver
   * varied by -10% and +10%.
   */
  lemma {:induction false} EntriesLabelled(d: Drivers, history: History, periods: int, base: real,
                                           drivers: seq<Driver>, k: nat)
    requires Entries(d, history, periods, base, drivers).Ok? && k < |drivers|
    ensures var e := Entries(d, history, periods, base, drivers).value[k];
      && e.driverName == Label(drivers[k]) && e.baseValue == base
      && VariedTotal(d, history, Label(drivers[k]), -10.0, periods) == Ok(e.lowValue)
      && VariedTotal(d, history, Label(drivers[k]), 10.0, periods) == Ok(e.highValue)
    decreases |drivers|
  {
    var prefix, name := drivers[..|drivers| - 1], Label(drivers[|drivers| - 1]);
    var entries := Entries(d, history, periods, base, prefix).value;
    var m := Analysis(d, history, name, [-10.0, 10.0], periods).value;
    assert -10.0 in [-10.0, 10.0] && 10.0 in [-10.0, 10.0];
    assert Entries(d, history, periods, base, drivers).value
           == entries + [TornadoEntry(name, m[-10.0], base, m[10.0])];
    SwingTotals(d, history, name, periods);
    if k < |drivers| - 1 {
      EntriesLabelled(d, history, periods, base, prefix, k);
      assert prefix[k] == drivers[k];
    }
  }

  /** The +/-10% analysis of one driver maps each of the two variations to its varied total. */
  lemma SwingTotals(d: Drivers, history: History, name: string, periods: int)
    requires Analysis(d, history, name, [-10.0, 10.0], periods).Ok?
    ensures var m := Analysis(d, history, name, [-10.0, 10.0], periods).value;
      && VariedTotal(d, history, name, -10.0, periods) == Ok(m[-10.0])
      && VariedTotal(d, history, name, 10.0, periods) == Ok(m[10.0])
  {
    assert [-10.0, 10.0][..1] == [-10.0];
    assert [-10.0][..0] == [];
  }

  /** Every bar carries the shared base total. */
  lemma EntriesShareBase(d: Drivers, history: History, periods: int, base: real, drivers: seq<Driver>)
    requires Entries(d, history, periods, base, drivers).Ok?
    ensures forall e :: e in Entries(d, history, periods, base, drivers).value ==> e.baseValue == base
  {
    var entries := Entries(d, history, periods, base, drivers).value;
    forall e | e in entries
      ensures e.baseValue == base
    {
      var k :| 0 <= k < |entries| && entries[k] == e;
      EntriesLabelled(d, history, periods, base, drivers, k);
    }
  }

  /** One more driver whose +/-10% analysis succeeds appends its bar. */
  lemma EntriesStep(d: Drivers, history: History, periods: int, base: real, drivers: seq<Driver>,
                    i: nat, entries: seq<TornadoEntry>, m: map<real, real>)
    requires i < |drivers|
    requires Entries(d, history, periods, base, drivers[..i]) == Ok(entries)
    requires Analysis(d, history, Label(drivers[i]), [-10.0, 10.0], periods) == Ok(m)
    ensures -10.0 in m && 10.0 in m
    ensures Entries(d, history, periods, base, drivers[..i + 1])
            == Ok(entries + [TornadoEntry(Label(drivers[i]), m[-10.0], base, m[10.0])])
  {
    assert drivers[..i + 1][..i] == drivers[..i];
    assert -10.0 in [-10.0, 10.0] && 10.0 in [-10.0, 10.0];
  }

  /**
   * The tornado table: the base total first, then each driver's swing, one
   * bar per driver, sorted by impact.
   */
  function Tornado(d: Drivers, history: History, periods: int): (r: Result<seq<TornadoEntry>, EngineError>)
    ensures |history.revenue| == 0 || periods <= 0 ==> r.Err?
    ensures r.Ok? ==> SortedByImpact(r.value)
    ensures r.Ok? ==> |r.value| == |DriverOrder|
  {
    match FcfTotal(d, history, periods)
    case Err(e) => Err(e)
    case Ok(base) =>
      match Entries(d, history, periods, base, DriverOrder)
      case Err(e) => Err(e)
      case Ok(entries) =>
        var sorted := SortByImpact(entries);
        assert |sorted| == |multiset(sorted)| == |multiset(entries)| == |entries|;
        Ok(sorted)
  }

  lemma {:induction false} EntriesSucceed(d: Drivers, history: History, periods: int, base: real, drivers: seq<Driver>)
    requires |history.revenue| > 0 && periods > 0
    ensures Entries(d, history, periods, base, drivers).Ok?
    decreases |drivers|
  {
    if |drivers| > 0 {
      var k := drivers[|drivers| - 1];
      EntriesSucceed(d, history, periods, base, drivers[..|drivers| - 1]);
      ParseLabel(k);
      KnownDriverFails(d, history, Label(k), [-10.0, 10.0], periods);
    }
  }

  /**
   * The tornado table lists each of the five drivers once, all against the
   * same base total, largest swing first; it fails exactly when there is no
   * forecast table to sum.
   */
  lemma TornadoShape(d: Drivers, history: History, periods: int)
    ensures var r := Tornado(d, history, periods);
      && (r.Err? <==> |history.revenue| == 0 || periods <= 0)
      && (r.Ok? ==> |r.value| == 5 && SortedByImpact(r.value))
      && (r.Ok? ==> forall e :: e in r.value ==> e.baseValue == FcfTotal(d, history, periods).value)
      && (r.Ok? ==> multiset(r.value) == multiset(Entries(d, history, periods, FcfTotal(d, history, periods).value, DriverOrder).value))
  {
    if |history.revenue| > 0 && periods > 0 {
      var base := FcfTotal(d, history, periods).value;
      EntriesSucceed(d, history, periods, base, DriverOrder);
      var entries := Entries(d, history, periods, base, DriverOrder).value;
      var sorted := SortByImpact(entries);
      assert |sorted| == |multiset(sorted)| == |multiset(entries)| == 5;
      EntriesShareBase(d, history, periods, base, DriverOrder);
      forall e | e in sorted
        ensures e.baseValue == base
      {
        assert e in multiset(entries);
      }
    }
  }

  /** The analyzer over one base driver object, which it copies before every variation. */
  class SensitivityAnalyzer {
    const baseDrivers: ForecastDrivers

    constructor (baseDrivers: ForecastDrivers)
      ensures this.baseDrivers == baseDrivers
    {
      this.baseDrivers := baseDrivers;
    }

    /** For each variation: copy the base drivers, scale the named one, forecast and total the free cash flow. */
    method AnalyzeDriverSensitivity(history: History, driverName: string,
                                    variations: Option<seq<real>> := None, periods: int := 12)
      returns (r: Result<map<real, real>, EngineError>)
      ensures r == Analysis(baseDrivers.Value(), history, driverName,
                            if variations.Some? then variations.value else DefaultVariations, periods)
    {
      var pcts := if variations.Some? then variations.value else DefaultVariations;
      ghost var base := baseDrivers.Value();
      var results: map<real, real> := map[];
      for i := 0 to |pcts|
        invariant baseDrivers.Value() == base
        invariant Analysis(base, history, driverName, pcts[..i], periods) == Ok(results)
      {
        var pct := pcts[i];
        var total := VariedForecastTotal(history, driverName, pct, periods);
        AnalysisStep(base, history, driverName, pcts, periods, i, results, total);
        if total.Err? {
          return Err(total.error);
        }
        results := results[pct := total.value];
      }
      assert pcts[..|pcts|] == pcts;
      return Ok(results);
    }

    /** One pass of the analysis loop: copy the base drivers, scale the named one, forecast and total. */
    method VariedForecastTotal(history: History, driverName: string, pct: real, periods: int)
      returns (r: Result<real, EngineError>)
      ensures r == VariedTotal(baseDrivers.Value(), history, driverName, pct, periods)
    {
      var drivers := baseDrivers.DeepCopy();
      var multiplier := 1.0 + pct / 100.0;
      var known := ApplyVariation(drivers, driverName, multiplier);
      if !known {
        return Err(UnknownDriver(driverName));
      }
      assert drivers.Value() == Vary(baseDrivers.Value(), Parse(driverName).value, Multiplier(pct));
      var forecaster := new DriverBasedForecaster(drivers);
      var forecast := forecaster.GenerateForecast(history, periods);
      if forecast.Err? {
        return Err(forecast.error);
      }
      r := ColumnSum(forecast.value, FreeCashflowColumn);
    }

    /** The base total, each driver's +/-10% totals, then the bars sorted by impact. */
    method TornadoChartData(history: History, periods: int := 12)
      returns (r: Result<seq<TornadoEntry>, EngineError>)
      ensures r == Tornado(baseDrivers.Value(), history, periods)
    {
      ghost var d := baseDrivers.Value();
      var baseForecaster := new DriverBasedForecaster(baseDrivers);
      var baseForecast := baseForecaster.GenerateForecast(history, periods);
      if baseForecast.Err? {
        return Err(baseForecast.error);
      }
      var baseTotal := ColumnSum(baseForecast.value, FreeCashflowColumn);
      if baseTotal.Err? {
        return Err(baseTotal.error);
      }
      var baseFcf := baseTotal.value;

      var tornado: seq<TornadoEntry> := [];
      var driversToTest := DriverOrder;
      for i := 0 to |driversToTest|
        invariant Entries(d, history, periods, baseFcf, driversToTest[..i]) == Ok(tornado)
      {
        var driver := Label(driversToTest[i]);
        var sensitivity := AnalyzeDriverSensitivity(history, driver, Some([-10.0, 10.0]), periods);
        if sensitivity.Err? {
          ParseLabel(driversToTest[i]);
          KnownDriverFails(d, history, driver, [-10.0, 10.0], periods);
          assert false;
        }
        EntriesStep(d, history, periods, baseFcf, driversToTest, i, tornado, sensitivity.value);
        tornado := tornado + [TornadoEntry(driver, sensitivity.value[-10.0], baseFcf, sensitivity.value[10.0])];
      }
      assert driversToTest[..|driversToTest|] == driversToTest;
      return Ok(SortByImpact(tornado));
    }
  }

  /** Scale the named driver of c in place, with the margin capped at 100%; report whether the name is known. */
  method ApplyVariation(c: ForecastDrivers, name: string, m: real) returns (known: bool)
    modifies c.workingCapital, c.revenue
    ensures known <==> Parse(name).Some?
    ensures known ==> c.Value() == Vary(old(c.Value()), Parse(name).value, m)
  {
    known := true;
    if name == "dso_days" {
      c.workingCapital.dsoDays := c.workingCapital.dsoDays * m;
    } else if name == "dpo_days" {
      c.workingCapital.dpoDays := c.workingCapital.dpoDays * m;
    } else if name == "dio_days" {
      c.workingCapital.dioDays := c.workingCapital.dioDays * m;
    } else if name == "revenue_growth_pct" {
      c.revenue.revenueGrowthPct := c.revenue.revenueGrowthPct * m;
    } else if name == "gross_margin_pct" {
      c.revenue.grossMarginPct := Min(100.0, c.revenue.grossMarginPct * m);
    } else {
      known := false;
    }
  }

  /** One more variation either fails the whole analysis with its error or adds its total. */
  lemma AnalysisStep(d: Drivers, history: History, name: string, variations: seq<real>, periods: int,
                     i: nat, results: map<real, real>, total: Result<real, EngineError>)
    requires i < |variations|
    requires Analysis(d, history, name, variations[..i], periods) == Ok(results)
    requires total == VariedTotal(d, history, name, variations[i], periods)
    ensures total.Err? ==> Analysis(d, history, name, variations, periods) == Err(total.error)
    ensures total.Ok? ==> Analysis(d, history, name, variations[..i + 1], periods)
                          == Ok(results[variations[i] := total.value])
  {
    assert variations[..i + 1][..i] == variations[..i];
    if total.Err? {
      AnalysisFailureSticks(d, history, name, variations, periods, i + 1);
    }
  }

  /** A failed analysis stays failed when one more variation is added. */
  lemma AnalysisAfterFailure(d: Drivers, history: History, name: string, variations: seq<real>, periods: int)
    requires |variations| > 0 && Analysis(d, history, name, variations[..|variations| - 1], periods).Err?
    ensures Analysis(d, history, name, variations, periods)
            == Analysis(d, history, name, variations[..|variations| - 1], periods)
  {
  }

  /** Once a prefix of the variations fails, so does the whole analysis, with the same error. */
  lemma {:induction false} AnalysisFailureSticks(d: Drivers, history: History, name: string,
                                                 variations: seq<real>, periods: int, m: nat)
    requires m <= |variations|
    requires Analysis(d, history, name, variations[..m], periods).Err?
    ensures Analysis(d, history, name, variations, periods) == Analysis(d, history, name, variations[..m], periods)
    decreases |variations| - m
  {
    if m < |variations| {
      var n := |variations|;
      assert variations[..n - 1][..m] == variations[..m];
      AnalysisFailureSticks(d, history, name, variations[..n - 1], periods, m);
      AnalysisAfterFailure(d, history, name, variations, periods);
    } else {
      assert variations[..m] == variations;
    }
  }
}
