/**
 * The indicators page: the base totals and the projected additional
 * revenues, the yearly indicators of a scenario's statement, the compound
 * growth rates, the threshold opinion and the per-crop revenue summary.
 */
module Indicators {
  import opened Common
  import opened Ledger
  import opened Plantings
  import Dre

  // ---------------------------------------------------------------------------
  // Base data

  /** The session keys the page needs before it computes anything, in the order it checks them. */
  const RequiredKeys: seq<string> := ["plantios", "dre_cenarios", "receitas_cenarios", "inflacoes", "anos"]

  /** Rough asset estimate: 20,000 per hectare of land plus 1,000,000 of fixed assets. */
  const AssetsPerHectare: real := 20000.0
  const FixedAssets: real := 1000000.0

  const Operational: string := "Operacional"
  const ExtraOperational: string := "Extra Operacional"

  /** Why the page stops with a message instead of showing the indicators. */
  datatype Stop = MissingKey(key: string) | NoPlantings | IncompletePlantings

  /** An additional revenue: a base value, its category, and the year labels it applies to. */
  datatype ExtraRevenue = ExtraRevenue(value: real, category: string, years: seq<string>)

  /** The base figures every scenario shares. */
  datatype Base = Base(hectares: real, sacks: real, value: real, assets: real,
                       operational: seq<real>, extraOperational: seq<real>)

  /** The first required key that the session lacks. */
  function FirstMissing(keys: set<string>, required: seq<string>): (r: Option<string>)
    ensures r.None? <==> forall k :: 0 <= k < |required| ==> required[k] in keys
    ensures r.Some? ==> exists k :: 0 <= k < |required| && required[k] == r.value && required[k] !in keys
                                    && forall j :: 0 <= j < k ==> required[j] in keys
  {
    if required == [] then None
    else if required[0] !in keys then Some(required[0])
    else
      assert forall k :: 0 <= k < |required| - 1 ==> required[1..][k] == required[k + 1];
      FirstMissing(keys, required[1..])
  }

  /** A key missing after keys that are all present is the first missing one. */
  lemma {:induction false} FirstMissingAt(keys: set<string>, required: seq<string>, k: nat)
    requires k < |required| && required[k] !in keys && forall j :: 0 <= j < k ==> required[j] in keys
    ensures FirstMissing(keys, required) == Some(required[k])
  {
    if k > 0 {
      FirstMissingAt(keys, required[1..], k - 1);
    }
  }

  /** How many of the application years `anos.index` finds at year i; a label not among the years raises and is skipped. */
  function Hits(applied: seq<string>, years: seq<string>, i: nat): nat
  {
    if applied == [] then 0
    else Hits(applied[..|applied| - 1], years, i) + (if IndexOf(years, applied[|applied| - 1]) == Some(i) then 1 else 0)
  }

  /** What one revenue adds to year i of the operational line: its value carried by the year's factor, once per hit. */
  function OperationalShare(r: ExtraRevenue, applied: seq<string>, years: seq<string>, inflation: seq<real>, i: nat): real
    requires i < |inflation|
  {
    if r.category == Operational then Dre.Times(Hits(applied, years, i), Inflated(r.value, Factor(inflation, i))) else 0.0
  }

  /** What one revenue adds to year i of the extra-operational line: its face value, once per hit. */
  function NonOperationalShare(r: ExtraRevenue, applied: seq<string>, years: seq<string>, i: nat): real
  {
    if r.category != Operational then Dre.Times(Hits(applied, years, i), r.value) else 0.0
  }

  /** One more application label is one more hit for the year `anos.index` finds for it, and for no other year. */
  lemma HitsStep(applied: seq<string>, y: string, years: seq<string>, i: nat)
    ensures Hits(applied + [y], years, i) == Hits(applied, years, i) + (if IndexOf(years, y) == Some(i) then 1 else 0)
  {
    assert (applied + [y])[..|applied|] == applied;
  }

  /** So it adds one more share to that year's entry of the revenue's line, and nothing elsewhere. */
  lemma ShareStep(r: ExtraRevenue, applied: seq<string>, y: string, years: seq<string>, inflation: seq<real>, i: nat)
    requires i < |inflation|
    ensures OperationalShare(r, applied + [y], years, inflation, i) == OperationalShare(r, applied, years, inflation, i)
              + (if r.category == Operational && IndexOf(years, y) == Some(i) then Inflated(r.value, Factor(inflation, i)) else 0.0)
    ensures NonOperationalShare(r, applied + [y], years, i) == NonOperationalShare(r, applied, years, i)
              + (if r.category != Operational && IndexOf(years, y) == Some(i) then r.value else 0.0)
  {
    var h := Hits(applied, years, i);
    HitsStep(applied, y, years, i);
    if IndexOf(years, y) == Some(i) {
      Dre.TimesStep(h, Inflated(r.value, Factor(inflation, i)));
      Dre.TimesStep(h, r.value);
    }
  }

  /** Whether every additional revenue is operational, or none is. */
  predicate AllOperational(extras: seq<ExtraRevenue>)
  {
    forall j :: 0 <= j < |extras| ==> extras[j].category == Operational
  }

  predicate NoneOperational(extras: seq<ExtraRevenue>)
  {
    forall j :: 0 <= j < |extras| ==> extras[j].category != Operational
  }

  /** Year i of the operational additional revenue, summed over the revenues. */
  function OperationalExtra(extras: seq<ExtraRevenue>, years: seq<string>, inflation: seq<real>, i: nat): (r: real)
    requires i < |inflation|
    ensures NoneOperational(extras) ==> r == 0.0
  {
    if extras == [] then 0.0
    else
      var r := extras[|extras| - 1];
      OperationalExtra(extras[..|extras| - 1], years, inflation, i) + OperationalShare(r, r.years, years, inflation, i)
  }

  /** Year i of the extra-operational additional revenue: every other category, at face value. */
  function NonOperationalExtra(extras: seq<ExtraRevenue>, years: seq<string>, i: nat): (r: real)
    ensures AllOperational(extras) ==> r == 0.0
  {
    if extras == [] then 0.0
    else
      var r := extras[|extras| - 1];
      NonOperationalExtra(extras[..|extras| - 1], years, i) + NonOperationalShare(r, r.years, years, i)
  }

  /** The two additional-revenue lines, one value per year label, all zero when the session holds none. */
  function ExtraLines(extras: Option<seq<ExtraRevenue>>, years: seq<string>, inflation: seq<real>): (lines: (seq<real>, seq<real>))
    requires |inflation| >= |years|
    ensures |lines.0| == |years| == |lines.1|
    ensures extras.None? ==> forall i :: 0 <= i < |years| ==> lines.0[i] == 0.0 && lines.1[i] == 0.0
    ensures extras.Some? ==> forall i :: 0 <= i < |years| ==>
              lines.0[i] == OperationalExtra(extras.value, years, inflation, i)
              && lines.1[i] == NonOperationalExtra(extras.value, years, i)
  {
    match extras
    case None => (seq(|years|, _ => 0.0), seq(|years|, _ => 0.0))
    case Some(es) =>
      (seq(|years|, i requires 0 <= i < |years| => OperationalExtra(es, years, inflation, i)),
       seq(|years|, i requires 0 <= i < |years| => NonOperationalExtra(es, years, i)))
  }

  /**
   * `get_base_financial_data`: the key checks, the planting totals, the asset
   * estimate and the additional revenues.
   */
  function BaseData(keys: set<string>, ps: seq<Planting>, years: seq<string>, inflation: seq<real>,
                    extras: Option<seq<ExtraRevenue>>): (r: Result<Base, Stop>)
    requires |inflation| >= |years|
    ensures FirstMissing(keys, RequiredKeys).Some? ==> r == Failure(MissingKey(FirstMissing(keys, RequiredKeys).value))
    ensures r.Success? <==> FirstMissing(keys, RequiredKeys).None? && ps != [] && TotalHectares(ps) != 0.0 && TotalSacks(ps) != 0.0
    ensures r.Success? ==> r.value.hectares == TotalHectares(ps) && r.value.sacks == TotalSacks(ps) && r.value.value == TotalValue(ps)
    ensures r.Success? ==> (r.value.assets >= FixedAssets <==> TotalHectares(ps) >= 0.0)
    ensures r.Success? ==> r.value.assets == TotalHectares(ps) * AssetsPerHectare + FixedAssets
    ensures r.Success? ==> (r.value.operational, r.value.extraOperational) == ExtraLines(extras, years, inflation)
  {
    match FirstMissing(keys, RequiredKeys)
    case Some(key) => Failure(MissingKey(key))
    case None =>
      if ps == [] then Failure(NoPlantings)
      else if TotalHectares(ps) == 0.0 || TotalSacks(ps) == 0.0 then Failure(IncompletePlantings)
      else
        var lines := ExtraLines(extras, years, inflation);
        Success(Base(TotalHectares(ps), TotalSacks(ps), TotalValue(ps),
                     TotalHectares(ps) * AssetsPerHectare + FixedAssets, lines.0, lines.1))
  }

  /** The page's loops: the totals, then the `+=` into the two additional-revenue lists. */
  method GetBaseFinancialData(keys: set<string>, ps: seq<Planting>, years: seq<string>, inflation: seq<real>,
                              extras: Option<seq<ExtraRevenue>>) returns (r: Result<Base, Stop>)
    requires |inflation| >= |years|
    ensures r == BaseData(keys, ps, years, inflation, extras)
  {
    for k := 0 to |RequiredKeys|
      invariant forall j :: 0 <= j < k ==> RequiredKeys[j] in keys
    {
      if RequiredKeys[k] !in keys {
        FirstMissingAt(keys, RequiredKeys, k);
        return Failure(MissingKey(RequiredKeys[k]));
      }
    }
    if ps == [] {
      return Failure(NoPlantings);
    }
    var hectares, sacks, value := AccumulateTotals(ps);
    if hectares == 0.0 || sacks == 0.0 {
      return Failure(IncompletePlantings);
    }
    var assets := hectares * AssetsPerHectare + FixedAssets;
    var operational, extraOperational := seq(|years|, _ => 0.0), seq(|years|, _ => 0.0);
    if extras.Some? {
      operational, extraOperational := ProjectExtraRevenues(extras.value, years, inflation);
    }
    assert operational == ExtraLines(extras, years, inflation).0;
    assert extraOperational == ExtraLines(extras, years, inflation).1;
    r := Success(Base(hectares, sacks, value, assets, operational, extraOperational));
  }

  /** The nested loop over the additional revenues and their application years. */
  method ProjectExtraRevenues(extras: seq<ExtraRevenue>, years: seq<string>, inflation: seq<real>)
    returns (operational: seq<real>, extraOperational: seq<real>)
    requires |inflation| >= |years|
    ensures |operational| == |years| == |extraOperational|
    ensures forall i :: 0 <= i < |years| ==> operational[i] == OperationalExtra(extras, years, inflation, i)
    ensures forall i :: 0 <= i < |years| ==> extraOperational[i] == NonOperationalExtra(extras, years, i)
  {
    operational, extraOperational := seq(|years|, _ => 0.0), seq(|years|, _ => 0.0);
    for m := 0 to |extras|
      invariant |operational| == |years| == |extraOperational|
      invariant forall i :: 0 <= i < |years| ==> operational[i] == OperationalExtra(extras[..m], years, inflation, i)
      invariant forall i :: 0 <= i < |years| ==> extraOperational[i] == NonOperationalExtra(extras[..m], years, i)
    {
      assert extras[..m + 1][..m] == extras[..m];
      operational, extraOperational := ApplyRevenue(extras[m], years, inflation, operational, extraOperational);
    }
    assert extras[..|extras|] == extras;
  }

  /** One revenue's application years: the year's entry of its line grows once per label found. */
  method ApplyRevenue(r: ExtraRevenue, years: seq<string>, inflation: seq<real>, operational0: seq<real>, extraOperational0: seq<real>)
    returns (operational: seq<real>, extraOperational: seq<real>)
    requires |inflation| >= |years| && |operational0| == |years| == |extraOperational0|
    ensures |operational| == |years| == |extraOperational|
    ensures forall i :: 0 <= i < |years| ==> operational[i] == operational0[i] + OperationalShare(r, r.years, years, inflation, i)
    ensures forall i :: 0 <= i < |years| ==> extraOperational[i] == extraOperational0[i] + NonOperationalShare(r, r.years, years, i)
  {
    operational, extraOperational := operational0, extraOperational0;
    for n := 0 to |r.years|
      invariant |operational| == |years| == |extraOperational|
      invariant forall i :: 0 <= i < |years| ==> operational[i] == operational0[i] + OperationalShare(r, r.years[..n], years, inflation, i)
      invariant forall i :: 0 <= i < |years| ==> extraOperational[i] == extraOperational0[i] + NonOperationalShare(r, r.years[..n], years, i)
    {
      assert r.years[..n + 1] == r.years[..n] + [r.years[n]];
      forall i | 0 <= i < |years| {
        ShareStep(r, r.years[..n], r.years[n], years, inflation, i);
      }
      match IndexOf(years, r.years[n])
      case None =>
      case Some(idx) =>
        if r.category == Operational {
          var factor := Factor(inflation, idx);
          operational := operational[idx := operational[idx] + Inflated(r.value, factor)];
        } else {
          extraOperational := extraOperational[idx := extraOperational[idx] + r.value];
        }
    }
    assert r.years[..|r.years|] == r.years;
  }

  /** An application year that is not among the year labels adds nothing. */
  lemma UnlistedYearIgnored(extras: seq<ExtraRevenue>, r: ExtraRevenue, y: string, years: seq<string>, inflation: seq<real>, i: nat)
    requires i < |inflation| && y !in years
    ensures var r' := r.(years := r.years + [y]);
      && OperationalExtra(extras + [r'], years, inflation, i) == OperationalExtra(extras + [r], years, inflation, i)
      && NonOperationalExtra(extras + [r'], years, i) == NonOperationalExtra(extras + [r], years, i)
  {
    var r' := r.(years := r.years + [y]);
    assert (r.years + [y])[..|r.years|] == r.years;
    ShareStep(r, r.years, y, years, inflation, i);
    assert (extras + [r'])[..|extras|] == extras;
    assert (extras + [r])[..|extras|] == extras;
  }

  /**
   * With distinct year labels, an operational revenue applied once, in year i,
   * adds its value carried by year i's factor there and nothing elsewhere;
   * an extra-operational one adds its face value.
   */
  lemma SingleApplication(v: real, category: string, years: seq<string>, inflation: seq<real>, i: nat, j: nat)
    requires |inflation| >= |years| && i < |years| && j < |years|
    requires forall a, b :: 0 <= a < b < |years| ==> years[a] != years[b]
    ensures var es := [ExtraRevenue(v, category, [years[i]])];
      && OperationalExtra(es, years, inflation, j) == (if category == Operational && i == j then Inflated(v, Factor(inflation, i)) else 0.0)
      && NonOperationalExtra(es, years, j) == (if category != Operational && i == j then v else 0.0)
  {
    var es := [ExtraRevenue(v, category, [years[i]])];
    assert IndexOf(years, years[i]) == Some(i);
    assert [years[i]][..0] == [];
    assert es[..0] == [];
    assert Hits([years[i]], years, j) == if i == j then 1 else 0;
  }

  /**
   * The factor as the page writes it for operational additional revenues:
   * `1 + inflacoes[j]`, without dividing the percentage by 100.
   */
  function AsWrittenExtraFactor(rates: seq<real>, i: nat): (f: real)
    requires i < |rates|
    ensures (forall j :: 0 <= j <= i ==> rates[j] == 0.0) ==> f == 1.0
  {
    if i == 0 then 1.0 + rates[0]
    else AsWrittenExtraFactor(rates, i - 1) * (1.0 + rates[i])
  }

  /** One more year of the factor as written: a factor of at least 1 times 1 + a non-negative rate bounds both. */
  lemma AsWrittenStep(f: real, r: real, g: real)
    requires f >= 1.0 && r >= 0.0 && g == f * (1.0 + r)
    ensures g >= f && g >= 1.0 + r
  {
    assert g - f == f * r;
    assert g - (1.0 + r) == (f - 1.0) * (1.0 + r);
  }

  /** For the form's non-negative rates the factor as written is at least every 1 + rate it multiplies. */
  lemma {:induction false} AsWrittenExtraFactorAtLeast(rates: seq<real>, i: nat)
    requires i < |rates| && forall j :: 0 <= j <= i ==> rates[j] >= 0.0
    ensures AsWrittenExtraFactor(rates, i) >= 1.0
    ensures forall j :: 0 <= j <= i ==> AsWrittenExtraFactor(rates, i) >= 1.0 + rates[j]
  {
    if i > 0 {
      AsWrittenExtraFactorAtLeast(rates, i - 1);
      var f := AsWrittenExtraFactor(rates, i - 1);
      var g := f * (1.0 + rates[i]);
      assert AsWrittenExtraFactor(rates, i) == g;
      AsWrittenStep(f, rates[i], g);
      forall j | 0 <= j <= i
        ensures g >= 1.0 + rates[j]
      {
        if j < i {
          assert f >= 1.0 + rates[j];
        }
      }
    } else {
      assert AsWrittenExtraFactor(rates, 0) == 1.0 + rates[0];
    }
  }

  /** With the form's non-negative rates, the factor as written is 1 exactly when every rate is 0. */
  lemma AsWrittenExtraFactorIsOne(rates: seq<real>, i: nat)
    requires i < |rates| && forall j :: 0 <= j <= i ==> rates[j] >= 0.0
    ensures AsWrittenExtraFactor(rates, i) == 1.0 <==> forall j :: 0 <= j <= i ==> rates[j] == 0.0
  {
    AsWrittenExtraFactorAtLeast(rates, i);
  }

  /**
   * At the default 4% a year, an operational revenue of 1,000 applied in the
   * first year is booked as 5,000 by the page as written, not 1,040.
   */
  lemma AsWrittenExtraFactorFivefold()
    ensures AsWrittenExtraFactor([4.0, 4.0, 4.0, 4.0, 4.0], 0) == 5.0
    ensures Factor([4.0, 4.0, 4.0, 4.0, 4.0], 0) == 1.04
    ensures 1000.0 * AsWrittenExtraFactor([4.0, 4.0, 4.0, 4.0, 4.0], 0) == 5000.0
    ensures Inflated(1000.0, Factor([4.0, 4.0, 4.0, 4.0, 4.0], 0)) == 1040.0
  {
  }

  /** The corrected line: an operational revenue of 1,000 applied in the first year is 1,040 at 4%. */
  lemma CorrectedExtraAtFourPercent(years: seq<string>)
    requires |years| == Horizon && forall a, b :: 0 <= a < b < |years| ==> years[a] != years[b]
    ensures OperationalExtra([ExtraRevenue(1000.0, Operational, [years[0]])], years, [4.0, 4.0, 4.0, 4.0, 4.0], 0) == 1040.0
  {
    SingleApplication(1000.0, Operational, years, [4.0, 4.0, 4.0, 4.0, 4.0], 0, 0);
  }

  // ---------------------------------------------------------------------------
  // Compound growth

  /** For a positive divisor, a quotient compares with 1 as the dividend compares with the divisor. */
  lemma RatioAgainstOne(a: real, b: real)
    requires b > 0.0
    ensures a / b < 1.0 <==> a < b
    ensures a / b == 1.0 <==> a == b
    ensures a / b == 0.0 <==> a == 0.0
  {
    var x := a / b;
    assert x * b == a;
    if x < 1.0 {
      assert (1.0 - x) * b > 0.0;
    } else {
      assert (x - 1.0) * b >= 0.0;
    }
  }

  /**
   * What the model knows of `x ** (1 / n)` for x >= 0 and n > 0: it is not
   * negative, it is 0 only at 0, and it lies on the same side of 1 as x.
   */
  ghost predicate IsRoot(root: (real, nat) -> real)
  {
    forall x: real, n: nat :: x >= 0.0 && n > 0 ==>
      root(x, n) >= 0.0 && (root(x, n) == 0.0 <==> x == 0.0)
      && (root(x, n) < 1.0 <==> x < 1.0) && (root(x, n) == 1.0 <==> x == 1.0)
  }

  /**
   * `calcular_cagr` as written, with the n-th root passed in. For a non-positive
   * final value it roots |final| / initial and multiplies by -100.
   */
  function CagrAsWritten(initial: real, final: real, periods: int, root: (real, nat) -> real): (r: real)
    ensures initial <= 0.0 || periods <= 0 ==> r == 0.0
  {
    if initial <= 0.0 || periods <= 0 then 0.0
    else if final <= 0.0 then (root(-final / initial, periods as nat) - 1.0) * -100.0
    else (root(final / initial, periods as nat) - 1.0) * 100.0
  }

  /** A profit that falls from 100 to 0 over four periods is reported as growing 100% a year. */
  lemma CagrAsWrittenCollapseIsGrowth(root: (real, nat) -> real)
    requires IsRoot(root)
    ensures CagrAsWritten(100.0, 0.0, 4, root) == 100.0
  {
    assert root(0.0 / 100.0, 4) == 0.0;
  }

  /** Whenever the final value is not positive but smaller in size than the initial one, the rate as written is positive. */
  lemma CagrAsWrittenPositiveOnLoss(initial: real, final: real, periods: int, root: (real, nat) -> real)
    requires IsRoot(root) && initial > 0.0 && periods > 0 && final <= 0.0 && -final < initial
    ensures CagrAsWritten(initial, final, periods, root) > 0.0
  {
    RatioAgainstOne(-final, initial);
    assert root(-final / initial, periods as nat) < 1.0;
  }

  function Abs(x: real): real
  {
    if x < 0.0 then -x else x
  }

  /**
   * The growth rate as the comment beside it intends: a non-positive final
   * value is a decline, so the rate is the negated size of the same root change.
   */
  function Cagr(initial: real, final: real, periods: int, root: (real, nat) -> real): (r: real)
    ensures initial <= 0.0 || periods <= 0 ==> r == 0.0
    ensures final <= 0.0 ==> r <= 0.0
    ensures final > 0.0 ==> r == CagrAsWritten(initial, final, periods, root)
  {
    if initial <= 0.0 || periods <= 0 then 0.0
    else if final <= 0.0 then -Abs(root(-final / initial, periods as nat) - 1.0) * 100.0
    else (root(final / initial, periods as nat) - 1.0) * 100.0
  }

  /**
   * For positive values the rate is positive exactly when the value grew, zero
   * exactly when it stayed, and never below -100; a value that falls to zero
   * or below gives -100 at zero and a negative rate otherwise unless it is the
   * mirror image of the initial value.
   */
  lemma CagrSign(initial: real, final: real, periods: int, root: (real, nat) -> real)
    requires IsRoot(root) && initial > 0.0 && periods > 0
    ensures final > 0.0 ==> (Cagr(initial, final, periods, root) > 0.0 <==> final > initial)
    ensures final > 0.0 ==> (Cagr(initial, final, periods, root) == 0.0 <==> final == initial)
    ensures final > 0.0 ==> Cagr(initial, final, periods, root) >= -100.0
    ensures final == 0.0 ==> Cagr(initial, final, periods, root) == -100.0
    ensures final <= 0.0 && final != -initial ==> Cagr(initial, final, periods, root) < 0.0
  {
    var p := periods as nat;
    if final > 0.0 {
      RatioAgainstOne(final, initial);
      assert root(final / initial, p) >= 0.0;
    } else {
      RatioAgainstOne(-final, initial);
      assert root(-final / initial, p) >= 0.0;
    }
  }

  // ---------------------------------------------------------------------------
  // Indicators of a scenario

  /** The statement lines the indicators read hold one value per year label. */
  predicate Shaped(s: Dre.Statement, n: nat)
  {
    |s.revenue| == n && |s.salesTax| == n && |s.operational| == n && |s.administrative| == n && |s.hr| == n
    && |s.extraOperational| == n && |s.dividends| == n && |s.resultTax| == n && |s.netProfit| == n && |s.operatingProfit| == n
  }

  /** `(num / den * 100) if den != 0 else 0`. */
  function Percent(num: real, den: real): (r: real)
    ensures den == 0.0 ==> r == 0.0
    ensures den != 0.0 ==> r * den == 100.0 * num
  {
    if den != 0.0 then num / den * 100.0 else 0.0
  }

  /** The base year's mean price per sack; the page guards it with `total_sacas > 0`, not `!= 0`. */
  function AveragePrice(b: Base): (r: real)
    ensures b.sacks > 0.0 ==> r * b.sacks == b.value
    ensures b.sacks <= 0.0 ==> r == 0.0
  {
    if b.sacks > 0.0 then b.value / b.sacks else 0.0
  }

  /** DSCR of year i: operating profit over the extra-operational line (the debt-service proxy), infinite without it. */
  function Coverage(s: Dre.Statement, i: nat): (r: Ratio)
    requires i < |s.extraOperational| && i < |s.operatingProfit|
    ensures r == Infinite <==> s.extraOperational[i] == 0.0
    ensures r.Finite? ==> r.value * s.extraOperational[i] == s.operatingProfit[i]
  {
    if s.extraOperational[i] != 0.0 then Finite(s.operatingProfit[i] / s.extraOperational[i]) else Infinite
  }

  /** Break-even yield of year i: the sacks per hectare that, at the base mean price, pay the year's expenses. */
  function BreakEven(s: Dre.Statement, b: Base, i: nat): (r: real)
    requires Shaped(s, |s.revenue|) && i < |s.revenue|
    ensures b.hectares == 0.0 || AveragePrice(b) == 0.0 ==> r == 0.0
    ensures b.hectares != 0.0 && AveragePrice(b) != 0.0 ==> r * (b.hectares * AveragePrice(b)) == Dre.TotalExpenses(s, i)
  {
    if b.hectares != 0.0 && AveragePrice(b) != 0.0 then Dre.TotalExpenses(s, i) / (b.hectares * AveragePrice(b)) else 0.0
  }

  /** The indicators of one scenario: per-year lists and the two growth rates. */
  datatype Indicators = Indicators(
    netMargin: seq<real>,
    returnPerReal: seq<real>,
    liquidity: seq<real>,
    indebtedness: seq<real>,
    productivity: seq<real>,
    costToRevenue: seq<real>,
    dscr: seq<Ratio>,
    breakEven: seq<real>,
    roa: seq<real>,
    revenueCagr: real,
    profitCagr: real,
    costPerHectare: seq<real>)

  /** `calculate_indicators_for_scenario` over a statement with one value per year label. */
  function ScenarioIndicators(s: Dre.Statement, n: nat, b: Base, root: (real, nat) -> real): (ind: Indicators)
    requires Shaped(s, n) && n > 0
    ensures |ind.netMargin| == |ind.returnPerReal| == |ind.liquidity| == |ind.indebtedness| == n
    ensures |ind.productivity| == |ind.costToRevenue| == |ind.dscr| == |ind.breakEven| == n
    ensures |ind.roa| == |ind.costPerHectare| == n
  {
    Indicators(
      seq(n, i requires 0 <= i < n => Percent(s.netProfit[i], s.revenue[i])),
      seq(n, i requires 0 <= i < n => SafeDiv(s.netProfit[i], Dre.TotalExpenses(s, i))),
      seq(n, i requires 0 <= i < n => SafeDiv(s.revenue[i], s.operational[i])),
      seq(n, i requires 0 <= i < n => Percent(s.extraOperational[i], s.revenue[i])),
      seq(n, i requires 0 <= i < n => SafeDiv(s.revenue[i], b.hectares)),
      seq(n, i requires 0 <= i < n => Percent(s.operational[i], s.revenue[i])),
      seq(n, i requires 0 <= i < n => Coverage(s, i)),
      seq(n, i requires 0 <= i < n => BreakEven(s, b, i)),
      seq(n, i requires 0 <= i < n => Percent(s.netProfit[i], b.assets)),
      Cagr(s.revenue[0], s.revenue[n - 1], n - 1, root),
      Cagr(s.netProfit[0], s.netProfit[n - 1], n - 1, root),
      seq(n, i requires 0 <= i < n => SafeDiv(Dre.TotalExpenses(s, i), b.hectares)))
  }

  /** The indebtedness append loop. */
  method IndebtednessLine(s: Dre.Statement, n: nat) returns (line: seq<real>)
    requires Shaped(s, n)
    ensures |line| == n
    ensures forall i :: 0 <= i < n ==> (s.revenue[i] == 0.0 ==> line[i] == 0.0)
                                       && (s.revenue[i] != 0.0 ==> line[i] * s.revenue[i] == 100.0 * s.extraOperational[i])
    ensures forall i :: 0 <= i < n ==> line[i] == Percent(s.extraOperational[i], s.revenue[i])
  {
    line := [];
    for i := 0 to n
      invariant |line| == i && forall j :: 0 <= j < i ==> line[j] == Percent(s.extraOperational[j], s.revenue[j])
    {
      var debtService := s.extraOperational[i];
      line := line + [if s.revenue[i] != 0.0 then debtService / s.revenue[i] * 100.0 else 0.0];
    }
  }

  /** The DSCR append loop: infinity for a year without debt service. */
  method DscrLine(s: Dre.Statement, n: nat) returns (line: seq<Ratio>)
    requires Shaped(s, n)
    ensures |line| == n
    ensures forall i :: 0 <= i < n ==> (line[i] == Infinite <==> s.extraOperational[i] == 0.0)
    ensures forall i :: 0 <= i < n ==> line[i].Finite? ==> line[i].value * s.extraOperational[i] == s.operatingProfit[i]
    ensures forall i :: 0 <= i < n ==> line[i] == Coverage(s, i)
  {
    line := [];
    for i := 0 to n
      invariant |line| == i && forall j :: 0 <= j < i ==> line[j] == Coverage(s, j)
    {
      var debtService := s.extraOperational[i];
      if debtService != 0.0 {
        line := line + [Finite(s.operatingProfit[i] / debtService)];
      } else {
        line := line + [Infinite];
      }
    }
  }

  /** The page's computation of a scenario's indicators. */
  method CalculateIndicators(s: Dre.Statement, n: nat, b: Base, root: (real, nat) -> real) returns (ind: Indicators)
    requires Shaped(s, n) && n > 0
    ensures ind == ScenarioIndicators(s, n, b, root)
  {
    var indebtedness := IndebtednessLine(s, n);
    var dscr := DscrLine(s, n);
    ind := Indicators(
      seq(n, i requires 0 <= i < n => Percent(s.netProfit[i], s.revenue[i])),
      seq(n, i requires 0 <= i < n => SafeDiv(s.netProfit[i], Dre.TotalExpenses(s, i))),
      seq(n, i requires 0 <= i < n => SafeDiv(s.revenue[i], s.operational[i])),
      indebtedness,
      seq(n, i requires 0 <= i < n => SafeDiv(s.revenue[i], b.hectares)),
      seq(n, i requires 0 <= i < n => Percent(s.operational[i], s.revenue[i])),
      dscr,
      seq(n, i requires 0 <= i < n => BreakEven(s, b, i)),
      seq(n, i requires 0 <= i < n => Percent(s.netProfit[i], b.assets)),
      Cagr(s.revenue[0], s.revenue[n - 1], n - 1, root),
      Cagr(s.netProfit[0], s.netProfit[n - 1], n - 1, root),
      seq(n, i requires 0 <= i < n => SafeDiv(Dre.TotalExpenses(s, i), b.hectares)));
  }

  /**
   * What the yearly shares of revenue mean: zero in a year without revenue,
   * and otherwise the percentage of that year's revenue.
   */
  lemma RevenueShares(s: Dre.Statement, n: nat, b: Base, root: (real, nat) -> real, i: nat)
    requires Shaped(s, n) && n > 0 && i < n
    ensures var ind := ScenarioIndicators(s, n, b, root);
      && (s.revenue[i] == 0.0 ==> ind.netMargin[i] == 0.0 && ind.indebtedness[i] == 0.0 && ind.costToRevenue[i] == 0.0)
      && (s.revenue[i] != 0.0 ==> ind.netMargin[i] * s.revenue[i] == 100.0 * s.netProfit[i])
      && (s.revenue[i] != 0.0 ==> ind.indebtedness[i] * s.revenue[i] == 100.0 * s.extraOperational[i])
      && (s.revenue[i] != 0.0 ==> ind.costToRevenue[i] * s.revenue[i] == 100.0 * s.operational[i])
  {
  }

  /**
   * What the other yearly ratios mean: zero when the denominator is zero,
   * and otherwise the value that multiplied by the denominator gives the
   * numerator; DSCR is infinite exactly in the years without debt service.
   */
  lemma OtherRatios(s: Dre.Statement, n: nat, b: Base, root: (real, nat) -> real, i: nat)
    requires Shaped(s, n) && n > 0 && i < n
    ensures var ind := ScenarioIndicators(s, n, b, root);
      var spent := Dre.TotalExpenses(s, i);
      && (spent == 0.0 ==> ind.returnPerReal[i] == 0.0) && (spent != 0.0 ==> ind.returnPerReal[i] * spent == s.netProfit[i])
      && (s.operational[i] == 0.0 ==> ind.liquidity[i] == 0.0) && (s.operational[i] != 0.0 ==> ind.liquidity[i] * s.operational[i] == s.revenue[i])
      && (b.hectares == 0.0 ==> ind.productivity[i] == 0.0 && ind.costPerHectare[i] == 0.0)
      && (b.hectares != 0.0 ==> ind.productivity[i] * b.hectares == s.revenue[i] && ind.costPerHectare[i] * b.hectares == spent)
      && (b.assets == 0.0 ==> ind.roa[i] == 0.0) && (b.assets != 0.0 ==> ind.roa[i] * b.assets == 100.0 * s.netProfit[i])
      && (ind.dscr[i] == Infinite <==> s.extraOperational[i] == 0.0)
  {
  }

  /**
   * The break-even line and the two growth rates: year i's break-even yield
   * is BreakEven, so it pays that year's expenses at the base mean price,
   * and both rates are the corrected Cagr of the first and last years; with
   * a positive first and last revenue the revenue rate is positive exactly
   * when the revenue grew.
   */
  lemma BreakEvenAndGrowth(s: Dre.Statement, n: nat, b: Base, root: (real, nat) -> real, i: nat)
    requires Shaped(s, n) && n > 0 && i < n
    ensures var ind := ScenarioIndicators(s, n, b, root);
      && ind.breakEven[i] == BreakEven(s, b, i)
      && (b.hectares != 0.0 && AveragePrice(b) != 0.0 ==> ind.breakEven[i] * (b.hectares * AveragePrice(b)) == Dre.TotalExpenses(s, i))
      && ind.revenueCagr == Cagr(s.revenue[0], s.revenue[n - 1], n - 1, root)
      && ind.profitCagr == Cagr(s.netProfit[0], s.netProfit[n - 1], n - 1, root)
    ensures IsRoot(root) && n > 1 && s.revenue[0] > 0.0 && s.revenue[n - 1] > 0.0 ==>
              (ScenarioIndicators(s, n, b, root).revenueCagr > 0.0 <==> s.revenue[n - 1] > s.revenue[0])
  {
    if IsRoot(root) && n > 1 && s.revenue[0] > 0.0 {
      CagrSign(s.revenue[0], s.revenue[n - 1], n - 1, root);
    }
  }

  /** On the page's own base data the asset estimate is at least 1,000,000, so ROA is always a true ratio there. */
  lemma AssetsNeverZero(keys: set<string>, ps: seq<Planting>, years: seq<string>, inflation: seq<real>,
                        extras: Option<seq<ExtraRevenue>>)
    requires |inflation| >= |years| && BaseData(keys, ps, years, inflation, extras).Success?
    requires forall j :: 0 <= j < |ps| ==> ps[j].hectares >= 0.0 && ps[j].yieldPerHectare >= 0.0 && ps[j].pricePerSack >= 0.0
    ensures BaseData(keys, ps, years, inflation, extras).value.assets >= FixedAssets
  {
    TotalsNonNegative(ps);
  }

  // ---------------------------------------------------------------------------
  // The opinion

  /** The finite entries of a DSCR list, in order. */
  function Finites(xs: seq<Ratio>): (fs: seq<real>)
    ensures |fs| <= |xs|
    ensures fs == [] <==> forall i :: 0 <= i < |xs| ==> xs[i] == Infinite
  {
    if xs == [] then []
    else Finites(xs[..|xs| - 1]) + (if xs[|xs| - 1].Finite? then [xs[|xs| - 1].value] else [])
  }

  /** `np.mean` of the finite entries, or infinity when there are none. */
  function DscrMean(xs: seq<Ratio>): (m: Ratio)
    ensures m == Infinite <==> forall i :: 0 <= i < |xs| ==> xs[i] == Infinite
    ensures m.Finite? ==> m.value * (|Finites(xs)| as real) == Sum(Finites(xs))
  {
    var fs := Finites(xs);
    if fs == [] then Infinite else Finite(Mean(fs))
  }

  /** An infinite entry changes neither the finite entries nor their mean. */
  lemma DscrMeanIgnoresInfinite(xs: seq<Ratio>, ys: seq<Ratio>)
    ensures Finites(xs + [Infinite] + ys) == Finites(xs + ys)
    ensures DscrMean(xs + [Infinite] + ys) == DscrMean(xs + ys)
  {
    FinitesAppend(xs + [Infinite], ys);
    FinitesAppend(xs, ys);
    assert (xs + [Infinite])[..|xs|] == xs;
  }

  lemma {:induction false} FinitesAppend(xs: seq<Ratio>, ys: seq<Ratio>)
    ensures Finites(xs + ys) == Finites(xs) + Finites(ys)
  {
    if ys != [] {
      var n := |ys| - 1;
      FinitesAppend(xs, ys[..n]);
      assert (xs + ys)[..|xs + ys| - 1] == xs + ys[..n];
    } else {
      assert xs + ys == xs;
    }
  }

  /** The topics of the opinion. */
  datatype Topic = Margin | Return | Liquidity | Debt | Productivity | Cost | Dscr | BreakEvenYield | Roa | ProfitGrowth

  /** Each statement either warns or reassures. */
  datatype Tone = Warning | Sound

  /** The ten statements, always in this order. */
  const TopicOrder: seq<Topic> := [Margin, Return, Liquidity, Debt, Productivity, Cost, Dscr, BreakEvenYield, Roa, ProfitGrowth]

  /** Every list the opinion averages has an entry. */
  predicate Averageable(ind: Indicators)
  {
    |ind.netMargin| > 0 && |ind.returnPerReal| > 0 && |ind.liquidity| > 0 && |ind.indebtedness| > 0
    && |ind.productivity| > 0 && |ind.costToRevenue| > 0 && |ind.breakEven| > 0 && |ind.roa| > 0
  }

  /** Base-year revenue per hectare, through the two averages as the page computes it. */
  function BaseRevenuePerHectare(b: Base): (r: real)
    ensures b.sacks != 0.0 && b.hectares != 0.0 ==> r * b.hectares == b.value
    ensures b.sacks == 0.0 || b.hectares == 0.0 ==> r == 0.0
  {
    if b.sacks != 0.0 && b.hectares != 0.0 then
      var r := (b.value / b.sacks) * (b.sacks / b.hectares);
      assert r * b.hectares == (b.value / b.sacks) * ((b.sacks / b.hectares) * b.hectares);
      r
    else 0.0
  }

  /** The base year's mean sacks per hectare. */
  function AverageYield(b: Base): real
  {
    SafeDiv(b.sacks, b.hectares)
  }

  /** The threshold that selects the warning of each topic, on the means of the lists. */
  function Alarm(t: Topic, ind: Indicators, b: Base): (alarm: bool)
    requires Averageable(ind)
    ensures alarm && t == Dscr ==> exists i :: 0 <= i < |ind.dscr| && ind.dscr[i].Finite?
    ensures alarm && t == BreakEvenYield ==> b.hectares != 0.0 && b.sacks != 0.0
  {
    match t
    case Margin => Mean(ind.netMargin) < 10.0
    case Return => Mean(ind.returnPerReal) < 0.2
    case Liquidity => Mean(ind.liquidity) < 1.5
    case Debt => Mean(ind.indebtedness) > 30.0
    case Productivity => Mean(ind.productivity) < BaseRevenuePerHectare(b) * 0.8
    case Cost => Mean(ind.costToRevenue) > 70.0
    case Dscr => DscrMean(ind.dscr).Finite? && DscrMean(ind.dscr).value < 1.25
    case BreakEvenYield => Mean(ind.breakEven) > AverageYield(b) * 0.8 && AverageYield(b) != 0.0
    case Roa => Mean(ind.roa) < 5.0
    case ProfitGrowth => ind.profitCagr < 0.0
  }

  /** When no finite entry is below c, neither is any entry the mean is taken over. */
  lemma {:induction false} FinitesAtLeast(xs: seq<Ratio>, c: real)
    requires forall i :: 0 <= i < |xs| && xs[i].Finite? ==> xs[i].value >= c
    ensures forall k :: 0 <= k < |Finites(xs)| ==> Finites(xs)[k] >= c
  {
    if xs != [] {
      FinitesAtLeast(xs[..|xs| - 1], c);
    }
  }

  /**
   * A warning is never raised by the averages alone: some year of the list
   * itself is on the wrong side of the threshold.
   */
  lemma AlarmWitness(t: Topic, ind: Indicators, b: Base)
    requires Averageable(ind) && Alarm(t, ind, b)
    ensures t == Margin ==> exists i :: 0 <= i < |ind.netMargin| && ind.netMargin[i] < 10.0
    ensures t == Return ==> exists i :: 0 <= i < |ind.returnPerReal| && ind.returnPerReal[i] < 0.2
    ensures t == Liquidity ==> exists i :: 0 <= i < |ind.liquidity| && ind.liquidity[i] < 1.5
    ensures t == Debt ==> exists i :: 0 <= i < |ind.indebtedness| && ind.indebtedness[i] > 30.0
    ensures t == Productivity ==> exists i :: 0 <= i < |ind.productivity| && ind.productivity[i] < BaseRevenuePerHectare(b) * 0.8
    ensures t == Cost ==> exists i :: 0 <= i < |ind.costToRevenue| && ind.costToRevenue[i] > 70.0
    ensures t == Dscr ==> exists i :: 0 <= i < |ind.dscr| && ind.dscr[i].Finite? && ind.dscr[i].value < 1.25
    ensures t == BreakEvenYield ==> exists i :: 0 <= i < |ind.breakEven| && ind.breakEven[i] > AverageYield(b) * 0.8
    ensures t == Roa ==> exists i :: 0 <= i < |ind.roa| && ind.roa[i] < 5.0
  {
    match t
    case Margin => MeanBelowWitness(ind.netMargin, 10.0);
    case Return => MeanBelowWitness(ind.returnPerReal, 0.2);
    case Liquidity => MeanBelowWitness(ind.liquidity, 1.5);
    case Debt => MeanAboveWitness(ind.indebtedness, 30.0);
    case Productivity => MeanBelowWitness(ind.productivity, BaseRevenuePerHectare(b) * 0.8);
    case Cost => MeanAboveWitness(ind.costToRevenue, 70.0);
    case Dscr =>
      var fs := Finites(ind.dscr);
      MeanBelowWitness(fs, 1.25);
      if forall i :: 0 <= i < |ind.dscr| && ind.dscr[i].Finite? ==> ind.dscr[i].value >= 1.25 {
        FinitesAtLeast(ind.dscr, 1.25);
        assert false;
      }
    case BreakEvenYield => MeanAboveWitness(ind.breakEven, AverageYield(b) * 0.8);
    case Roa => MeanBelowWitness(ind.roa, 5.0);
    case ProfitGrowth =>
  }

  /** The tone the page picks for a topic. */
  function ToneOf(t: Topic, ind: Indicators, b: Base): (tone: Tone)
    requires Averageable(ind)
    ensures tone == Warning <==> Alarm(t, ind, b)
  {
    if Alarm(t, ind, b) then Warning else Sound
  }

  /** `generate_financial_opinion` for one scenario: ten statements appended in a fixed order. */
  method FinancialOpinion(ind: Indicators, b: Base) returns (opinion: seq<(Topic, Tone)>)
    requires Averageable(ind)
    ensures |opinion| == |TopicOrder|
    ensures forall k :: 0 <= k < |opinion| ==> opinion[k].0 == TopicOrder[k]
    ensures forall k :: 0 <= k < |opinion| ==> (opinion[k].1 == Warning <==> Alarm(TopicOrder[k], ind, b))
  {
    opinion := [];
    opinion := opinion + [(Margin, ToneOf(Margin, ind, b))];
    opinion := opinion + [(Return, ToneOf(Return, ind, b))];
    opinion := opinion + [(Liquidity, ToneOf(Liquidity, ind, b))];
    opinion := opinion + [(Debt, ToneOf(Debt, ind, b))];
    opinion := opinion + [(Productivity, ToneOf(Productivity, ind, b))];
    opinion := opinion + [(Cost, ToneOf(Cost, ind, b))];
    opinion := opinion + [(Dscr, ToneOf(Dscr, ind, b))];
    opinion := opinion + [(BreakEvenYield, ToneOf(BreakEvenYield, ind, b))];
    opinion := opinion + [(Roa, ToneOf(Roa, ind, b))];
    opinion := opinion + [(ProfitGrowth, ToneOf(ProfitGrowth, ind, b))];
    assert opinion == seq(|TopicOrder|, k requires 0 <= k < |TopicOrder| => (TopicOrder[k], ToneOf(TopicOrder[k], ind, b)));
  }

  /** A DSCR warning needs a year with debt service: years without it only give infinite entries, which the mean skips. */
  lemma DscrWarningNeedsDebt(s: Dre.Statement, n: nat, b: Base, root: (real, nat) -> real)
    requires Shaped(s, n) && n > 0
    requires Alarm(Dscr, ScenarioIndicators(s, n, b, root), b)
    ensures exists i :: 0 <= i < n && s.extraOperational[i] != 0.0
  {
    var d := ScenarioIndicators(s, n, b, root).dscr;
    var i :| 0 <= i < |d| && d[i] != Infinite;
    assert d[i] == Coverage(s, i);
  }

  /**
   * The profit-growth warning, with the growth rate corrected, fires only when
   * the first year's profit is positive and the last year's is lower; and it
   * does fire then, unless the last year's loss mirrors the first year's profit.
   */
  lemma ProfitWarningMeansDecline(s: Dre.Statement, n: nat, b: Base, root: (real, nat) -> real)
    requires Shaped(s, n) && n > 0 && IsRoot(root)
    ensures var ind := ScenarioIndicators(s, n, b, root);
      ind.profitCagr < 0.0 ==> n > 1 && s.netProfit[0] > 0.0 && s.netProfit[n - 1] < s.netProfit[0]
    ensures var ind := ScenarioIndicators(s, n, b, root);
      n > 1 && s.netProfit[0] > 0.0 && s.netProfit[n - 1] < s.netProfit[0] && s.netProfit[n - 1] != -s.netProfit[0]
      ==> ind.profitCagr < 0.0
  {
    var first, last := s.netProfit[0], s.netProfit[n - 1];
    if n > 1 && first > 0.0 {
      CagrSign(first, last, n - 1, root);
    }
  }

  // ---------------------------------------------------------------------------
  // Revenue per crop

  /** A line of the crop summary: crop or extra-revenue label, revenue, area and revenue per hectare. */
  datatype SummaryRow = SummaryRow(name: string, revenue: real, area: real, revenuePerHectare: real)

  /** Each planting's crop and base-year revenue. */
  function CropRevenue(ps: seq<Planting>): (g: seq<Entry>)
    ensures |g| == |ps| && forall j :: 0 <= j < |ps| ==> g[j] == (ps[j].crop, GrossValue(ps[j]))
  {
    seq(|ps|, j requires 0 <= j < |ps| => (ps[j].crop, GrossValue(ps[j])))
  }

  /** Each planting's crop and area. */
  function CropArea(ps: seq<Planting>): (g: seq<Entry>)
    ensures |g| == |ps| && forall j :: 0 <= j < |ps| ==> g[j] == (ps[j].crop, ps[j].hectares)
  {
    seq(|ps|, j requires 0 <= j < |ps| => (ps[j].crop, ps[j].hectares))
  }

  /** The `culturas` dict as rows: one per crop, in first-registration order. */
  function CropRows(ps: seq<Planting>): (rows: seq<SummaryRow>)
    ensures |rows| == |Group(CropRevenue(ps))|
  {
    var g, a := Group(CropRevenue(ps)), Group(CropArea(ps));
    GroupShape(CropRevenue(ps), CropArea(ps));
    seq(|g|, j requires 0 <= j < |g| => SummaryRow(g[j].0, g[j].1, a[j].1, SafeDiv(g[j].1, a[j].1)))
  }

  lemma CropRowAt(ps: seq<Planting>, j: nat)
    requires j < |CropRows(ps)|
    ensures |Group(CropArea(ps))| == |Group(CropRevenue(ps))|
    ensures CropRows(ps)[j].name == Group(CropRevenue(ps))[j].0 == Group(CropArea(ps))[j].0
    ensures CropRows(ps)[j].revenue == Group(CropRevenue(ps))[j].1
    ensures CropRows(ps)[j].area == Group(CropArea(ps))[j].1
    ensures CropRows(ps)[j].revenuePerHectare == SafeDiv(CropRows(ps)[j].revenue, CropRows(ps)[j].area)
  {
    GroupShape(CropRevenue(ps), CropArea(ps));
  }

  /** A crop's revenue and area are the sums over its plantings; revenue per hectare is 0 for a crop without area. */
  lemma CropRowsSums(ps: seq<Planting>, j: nat)
    requires j < |CropRows(ps)|
    ensures var r := CropRows(ps)[j];
      && r.revenue == SumFor(CropRevenue(ps), r.name)
      && r.area == SumFor(CropArea(ps), r.name)
  {
    CropRowAt(ps, j);
    var g, a := Group(CropRevenue(ps)), Group(CropArea(ps));
    var k := g[j].0;
    LookupDistinct(g, j);
    LookupDistinct(a, j);
    GroupLookup(CropRevenue(ps), k);
    GroupLookup(CropArea(ps), k);
  }

  /** Revenue per hectare is 0 for a row without area, and otherwise the row's revenue over its area. */
  predicate PerHectareConsistent(r: SummaryRow)
  {
    (r.area == 0.0 ==> r.revenuePerHectare == 0.0) && (r.area != 0.0 ==> r.revenuePerHectare * r.area == r.revenue)
  }

  lemma SafeDivRow(name: string, revenue: real, area: real)
    ensures PerHectareConsistent(SummaryRow(name, revenue, area, SafeDiv(revenue, area)))
  {
  }

  /** Every crop row's revenue per hectare is consistent with its revenue and area. */
  lemma CropRowsPerHectare(ps: seq<Planting>, j: nat)
    requires j < |CropRows(ps)|
    ensures PerHectareConsistent(CropRows(ps)[j])
  {
    var r := CropRows(ps)[j];
    CropRowAt(ps, j);
    SafeDivRow(r.name, r.revenue, r.area);
  }

  /** Each row names a registered crop, and no crop has two rows. */
  lemma CropRowsNames(ps: seq<Planting>, j: nat)
    requires j < |CropRows(ps)|
    ensures exists m :: 0 <= m < |ps| && ps[m].crop == CropRows(ps)[j].name
    ensures forall k :: 0 <= k < |CropRows(ps)| && k != j ==> CropRows(ps)[k].name != CropRows(ps)[j].name
  {
    var g := Group(CropRevenue(ps));
    forall k | 0 <= k < |CropRows(ps)|
      ensures CropRows(ps)[k].name == g[k].0
    {
      CropRowAt(ps, k);
    }
    assert HasName(g, g[j].0);
    GroupNames(CropRevenue(ps), g[j].0);
    var m :| 0 <= m < |ps| && CropRevenue(ps)[m].0 == g[j].0;
  }

  /** The crop rows' revenues add up to the harvest's base-year value. */
  lemma CropRowsTotal(ps: seq<Planting>)
    ensures Total(Group(CropRevenue(ps))) == TotalValue(ps)
  {
    GroupConserves(CropRevenue(ps));
    CropRevenueTotal(ps);
  }

  lemma {:induction false} CropRevenueTotal(ps: seq<Planting>)
    ensures Total(CropRevenue(ps)) == TotalValue(ps)
  {
    if ps != [] {
      var n := |ps| - 1;
      CropRevenueTotal(ps[..n]);
      assert CropRevenue(ps) == CropRevenue(ps[..n]) + [(ps[n].crop, GrossValue(ps[n]))];
      TotalSnoc(CropRevenue(ps[..n]), (ps[n].crop, GrossValue(ps[n])));
    }
  }

  /** The base-year sum of the additional revenues of one category. */
  function ExtraBase(extras: seq<ExtraRevenue>, category: string): real
  {
    if extras == [] then 0.0
    else ExtraBase(extras[..|extras| - 1], category) + (if extras[|extras| - 1].category == category then extras[|extras| - 1].value else 0.0)
  }

  /** The category of the first additional revenue that is neither operational nor extra-operational. */
  function FirstUnknownCategory(extras: seq<ExtraRevenue>): (r: Option<string>)
    ensures r.None? <==> forall m :: 0 <= m < |extras| ==> extras[m].category in {Operational, ExtraOperational}
  {
    if extras == [] then None
    else if extras[0].category !in {Operational, ExtraOperational} then Some(extras[0].category)
    else
      assert forall m :: 0 <= m < |extras| - 1 ==> extras[1..][m] == extras[m + 1];
      FirstUnknownCategory(extras[1..])
  }

  lemma {:induction false} FirstUnknownAt(extras: seq<ExtraRevenue>, m: nat)
    requires m < |extras| && extras[m].category !in {Operational, ExtraOperational}
    requires forall j :: 0 <= j < m ==> extras[j].category in {Operational, ExtraOperational}
    ensures FirstUnknownCategory(extras) == Some(extras[m].category)
  {
    if m > 0 {
      FirstUnknownAt(extras[1..], m - 1);
    }
  }

  /** An extra-revenue row for each category whose base sum is positive. */
  function ExtraRows(extras: seq<ExtraRevenue>): (rows: seq<SummaryRow>)
    ensures |rows| <= 2
    ensures forall r :: r in rows ==> r.revenue > 0.0 && r.area == 0.0 && r.revenuePerHectare == 0.0
  {
    var op, ex := ExtraBase(extras, Operational), ExtraBase(extras, ExtraOperational);
    (if op > 0.0 then [SummaryRow("Receita Extra (" + Operational + ")", op, 0.0, 0.0)] else [])
    + (if ex > 0.0 then [SummaryRow("Receita Extra (" + ExtraOperational + ")", ex, 0.0, 0.0)] else [])
  }

  /**
   * `display_revenue_by_crop`: the crop rows, then the extra-revenue rows when
   * the session holds additional revenues. A category other than the two
   * known ones has no entry in the page's dict and raises.
   */
  function RevenueSummary(ps: seq<Planting>, extras: Option<seq<ExtraRevenue>>): (r: Result<seq<SummaryRow>, string>)
    ensures r.Failure? <==> extras.Some? && FirstUnknownCategory(extras.value).Some?
    ensures r.Success? ==> CropRows(ps) <= r.value
  {
    match extras
    case None => Success(CropRows(ps))
    case Some(es) =>
      match FirstUnknownCategory(es)
      case Some(category) => Failure(category)
      case None => Success(CropRows(ps) + ExtraRows(es))
  }

  /** The page's loops: the crop dict filled planting by planting, then the extra sums. */
  method SummarizeRevenue(ps: seq<Planting>, extras: Option<seq<ExtraRevenue>>) returns (r: Result<seq<SummaryRow>, string>)
    ensures r == RevenueSummary(ps, extras)
  {
    var revenue, area := CropTotals(ps);
    GroupShape(CropRevenue(ps), CropArea(ps));
    var rows := seq(|revenue|, j requires 0 <= j < |revenue| =>
      SummaryRow(revenue[j].0, revenue[j].1, area[j].1, if area[j].1 != 0.0 then revenue[j].1 / area[j].1 else 0.0));
    assert rows == CropRows(ps);
    if extras.None? {
      return Success(rows);
    }
    var sums := ExtraSums(extras.value);
    if sums.Failure? {
      return Failure(sums.error);
    }
    var (op, ex) := sums.value;
    assert FirstUnknownCategory(extras.value).None?;
    ghost var base := rows;
    if op > 0.0 {
      rows := rows + [SummaryRow("Receita Extra (" + Operational + ")", op, 0.0, 0.0)];
    }
    if ex > 0.0 {
      rows := rows + [SummaryRow("Receita Extra (" + ExtraOperational + ")", ex, 0.0, 0.0)];
    }
    assert rows == base + ExtraRows(extras.value);
    r := Success(rows);
  }

  /** The `receitas_extras_base` loop: the two category sums, or the first category the dict has no key for. */
  method ExtraSums(es: seq<ExtraRevenue>) returns (r: Result<(real, real), string>)
    ensures r.Failure? <==> FirstUnknownCategory(es).Some?
    ensures r.Failure? ==> r.error == FirstUnknownCategory(es).value
    ensures r.Success? ==> r.value == (ExtraBase(es, Operational), ExtraBase(es, ExtraOperational))
  {
    var op, ex := 0.0, 0.0;
    for m := 0 to |es|
      invariant op == ExtraBase(es[..m], Operational) && ex == ExtraBase(es[..m], ExtraOperational)
      invariant forall j :: 0 <= j < m ==> es[j].category in {Operational, ExtraOperational}
    {
      assert es[..m + 1][..m] == es[..m];
      if es[m].category == Operational {
        op := op + es[m].value;
      } else if es[m].category == ExtraOperational {
        ex := ex + es[m].value;
      } else {
        FirstUnknownAt(es, m);
        return Failure(es[m].category);
      }
    }
    assert es[..|es|] == es;
    r := Success((op, ex));
  }

  /** One more planting adds its revenue and its area under its crop. */
  lemma CropStep(ps: seq<Planting>, k: nat)
    requires k < |ps|
    ensures Group(CropRevenue(ps[..k + 1])) == AddTo(Group(CropRevenue(ps[..k])), ps[k].crop, GrossValue(ps[k]))
    ensures Group(CropArea(ps[..k + 1])) == AddTo(Group(CropArea(ps[..k])), ps[k].crop, ps[k].hectares)
  {
    assert CropRevenue(ps[..k + 1])[..k] == CropRevenue(ps[..k]);
    assert CropArea(ps[..k + 1])[..k] == CropArea(ps[..k]);
  }

  /** The `culturas` loop: both sums of a crop are updated under the same key. */
  method CropTotals(ps: seq<Planting>) returns (revenue: seq<Entry>, area: seq<Entry>)
    ensures revenue == Group(CropRevenue(ps)) && area == Group(CropArea(ps))
  {
    revenue, area := [], [];
    for k := 0 to |ps|
      invariant revenue == Group(CropRevenue(ps[..k])) && area == Group(CropArea(ps[..k]))
    {
      var p := ps[k];
      CropStep(ps, k);
      revenue := AddTo(revenue, p.crop, GrossValue(p));
      area := AddTo(area, p.crop, p.hectares);
    }
    assert ps[..|ps|] == ps;
  }
}
