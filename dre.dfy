/**
 * The income statement (DRE) of one scenario. Either the expense lines come
 * from an adjusted flow, copied as they are, or they are recomputed: category
 * totals compounded with inflation and shifted by the scenario's expense
 * adjustment, sales tax on revenue, and the loan installments spread over the
 * horizon. The subtotal chain and the result tax close the statement.
 */
module Dre {
  import opened Common
  import opened Expenses

  /** A loan: the labels of its first and last year, how many installments, and their value. */
  datatype Loan = Loan(startYear: string, endYear: string, installments: int, installmentValue: real)

  datatype DreError =
    | IncompleteFlow        // the adjusted flow lacks a required line
    | UnknownScenario       // no revenue vector under the scenario's name
    | MissingExtraRevenue   // no "Extra Operacional" entry among the extra revenues

  /** The thirteen lines of the statement, each a vector of yearly amounts. */
  datatype Statement = Statement(
    revenue: seq<real>,
    salesTax: seq<real>,
    operational: seq<real>,
    administrative: seq<real>,
    hr: seq<real>,
    extraOperational: seq<real>,
    dividends: seq<real>,
    extraRevenue: seq<real>,
    resultTax: seq<real>,
    margin: seq<real>,
    operatingResult: seq<real>,
    operatingProfit: seq<real>,
    netProfit: seq<real>)

  const SalesTaxRate: real := 0.0485
  const ResultTaxRate: real := 0.15

  /** The adjusted flow carries all seven required lines. */
  predicate Complete(flow: map<string, seq<real>>)
  {
    && "Despesas Operacionais" in flow && "Despesas Administrativas" in flow && "Despesas RH" in flow
    && "Despesas Extra Operacional" in flow && "Impostos Sobre Venda" in flow
    && "Impostos Sobre Resultado" in flow && "Dividendos" in flow
  }

  /** Every vector of a keyed collection spans the horizon. */
  predicate Spans(m: map<string, seq<real>>)
  {
    forall k :: k in m ==> |m[k]| >= Horizon
  }

  /** The expense shift of a scenario, in percent: up when pessimistic, down when optimistic. */
  function Adjustment(scenario: string, pess: real, otm: real): real
  {
    if scenario == "Pessimista" then pess else if scenario == "Otimista" then -otm else 0.0
  }

  // ---------------------------------------------------------------------------
  // Yearly vectors

  function Diff(a: seq<real>, b: seq<real>): (r: seq<real>)
    requires |a| >= Horizon && |b| >= Horizon
    ensures |r| == Horizon && forall i :: 0 <= i < Horizon ==> r[i] == a[i] - b[i]
  {
    seq(Horizon, i requires 0 <= i < Horizon => a[i] - b[i])
  }

  function Plus(a: seq<real>, b: seq<real>): (r: seq<real>)
    requires |a| >= Horizon && |b| >= Horizon
    ensures |r| == Horizon && forall i :: 0 <= i < Horizon ==> r[i] == a[i] + b[i]
  {
    seq(Horizon, i requires 0 <= i < Horizon => a[i] + b[i])
  }

  /** Sales tax on every year of a revenue vector, whatever its length. */
  function SalesTax(revenue: seq<real>): (r: seq<real>)
    ensures |r| == |revenue| && forall i :: 0 <= i < |r| ==> r[i] == revenue[i] * SalesTaxRate
  {
    seq(|revenue|, i requires 0 <= i < |revenue| => revenue[i] * SalesTaxRate)
  }

  /** Result tax: 15% of a positive operating profit, nothing otherwise. */
  function ResultTax(profit: seq<real>): (r: seq<real>)
    requires |profit| >= Horizon
    ensures |r| == Horizon && forall i :: 0 <= i < Horizon ==> r[i] == if profit[i] > 0.0 then profit[i] * ResultTaxRate else 0.0
  {
    seq(Horizon, i requires 0 <= i < Horizon => if profit[i] > 0.0 then profit[i] * ResultTaxRate else 0.0)
  }

  /** Result tax is never negative and never more than 15% of the profit when there is one. */
  lemma ResultTaxBounds(profit: seq<real>, i: nat)
    requires |profit| >= Horizon && i < Horizon
    ensures ResultTax(profit)[i] >= 0.0
    ensures profit[i] > 0.0 ==> ResultTax(profit)[i] < profit[i]
    ensures profit[i] <= 0.0 ==> ResultTax(profit)[i] == 0.0
  {
  }

  // ---------------------------------------------------------------------------
  // Category lines

  /** The amounts of the expenses filed under exactly this category. */
  function CategoryTotal(es: seq<Expense>, category: string): real
  {
    if es == [] then 0.0
    else CategoryTotal(es[..|es| - 1], category) + (if es[|es| - 1].category == category then es[|es| - 1].amount else 0.0)
  }

  /** A category with no expense totals zero. */
  lemma {:induction false} CategoryTotalEmpty(es: seq<Expense>, category: string)
    requires forall j :: 0 <= j < |es| ==> es[j].category != category
    ensures CategoryTotal(es, category) == 0.0
  {
    if es != [] {
      CategoryTotalEmpty(es[..|es| - 1], category);
    }
  }

  /** Registering an expense raises its own category's total by its amount and leaves every other one as it was. */
  lemma CategoryTotalAppend(es: seq<Expense>, e: Expense, category: string)
    ensures CategoryTotal(es + [e], category) == CategoryTotal(es, category) + if e.category == category then e.amount else 0.0
  {
    assert (es + [e])[..|es|] == es;
  }

  /** A category line: the total compounded through each year and shifted by the scenario adjustment. */
  function ExpenseLine(total: real, inflation: seq<real>, adjustment: real): (line: seq<real>)
    requires |inflation| >= Horizon
    ensures |line| == Horizon
    ensures forall i :: 0 <= i < Horizon ==> line[i] == total * Factor(inflation, i) * (1.0 + adjustment / 100.0)
  {
    seq(Horizon, i requires 0 <= i < Horizon => total * Factor(inflation, i) * (1.0 + adjustment / 100.0))
  }

  /** With no scenario adjustment a line is the total carried by the compound factors alone. */
  lemma UnadjustedLine(total: real, inflation: seq<real>, i: nat)
    requires |inflation| >= Horizon && i < Horizon
    ensures ExpenseLine(total, inflation, 0.0)[i] == Inflated(total, Factor(inflation, i))
  {
    var f := Factor(inflation, i);
    assert 1.0 + 0.0 / 100.0 == 1.0;
    assert ExpenseLine(total, inflation, 0.0)[i] == total * f * 1.0;
  }

  /**
   * The pessimistic line is the projected one raised by the pessimistic
   * percentage, the optimistic line the projected one lowered by the
   * optimistic percentage, and every other scenario name gets the projected line.
   */
  lemma ScenarioShift(total: real, inflation: seq<real>, pess: real, otm: real, scenario: string, i: nat)
    requires |inflation| >= Horizon && i < Horizon
    ensures ExpenseLine(total, inflation, Adjustment("Pessimista", pess, otm))[i]
            == ExpenseLine(total, inflation, 0.0)[i] * (1.0 + pess / 100.0)
    ensures ExpenseLine(total, inflation, Adjustment("Otimista", pess, otm))[i]
            == ExpenseLine(total, inflation, 0.0)[i] * (1.0 - otm / 100.0)
    ensures scenario != "Pessimista" && scenario != "Otimista" ==>
            ExpenseLine(total, inflation, Adjustment(scenario, pess, otm)) == ExpenseLine(total, inflation, 0.0)
  {
  }

  /** A category with no expenses gives a line of zeros in every scenario. */
  lemma EmptyCategoryZeros(es: seq<Expense>, category: string, inflation: seq<real>, adjustment: real)
    requires |inflation| >= Horizon
    requires forall j :: 0 <= j < |es| ==> es[j].category != category
    ensures ExpenseLine(CategoryTotal(es, category), inflation, adjustment) == [0.0, 0.0, 0.0, 0.0, 0.0]
  {
    CategoryTotalEmpty(es, category);
  }

  // ---------------------------------------------------------------------------
  // Loans

  /**
   * How many installments fall inside the horizon for a loan that starts at
   * year index s and ends at year index e: the years from s up to e and the
   * horizon's end, cut at the number of installments.
   */
  function PaidCount(s: nat, e: nat, installments: int): (n: nat)
    ensures n <= installments || n == 0
    ensures n > 0 ==> s + n <= e + 1 && s + n <= Horizon
    ensures installments > 0 && s <= e && s < Horizon ==> n == Min(installments, Min(e - s + 1, Horizon - s))
  {
    var stop := Min(e + 1, Horizon);
    if stop <= s || installments <= 0 then 0
    else if installments < stop - s then installments
    else stop - s
  }

  function Min(a: int, b: int): int
  {
    if a < b then a else b
  }

  /**
   * The years a loan pays in, as its first year index and how many
   * consecutive years; a loan whose first or last year label is not among
   * the years pays in none.
   */
  function Window(l: Loan, years: seq<string>): (nat, nat)
  {
    match (IndexOf(years, l.startYear), IndexOf(years, l.endYear))
    case (Some(s), Some(e)) => (s, PaidCount(s, e, l.installments))
    case _ => (0, 0)
  }

  /** The installment shifted by the scenario adjustment. */
  function AdjustedInstallment(l: Loan, adjustment: real): real
  {
    l.installmentValue * (1.0 + adjustment / 100.0)
  }

  /** The installment of a loan in year i; zero outside its window. */
  function Installment(l: Loan, years: seq<string>, adjustment: real, i: nat): real
  {
    var (s, n) := Window(l, years);
    if s <= i < s + n then AdjustedInstallment(l, adjustment) else 0.0
  }

  /** The extra-operational expense of year i: every loan's installment in that year. */
  function LoanYear(loans: seq<Loan>, years: seq<string>, adjustment: real, i: nat): real
  {
    if loans == [] then 0.0
    else LoanYear(loans[..|loans| - 1], years, adjustment, i) + Installment(loans[|loans| - 1], years, adjustment, i)
  }

  function LoanLine(loans: seq<Loan>, years: seq<string>, adjustment: real): (line: seq<real>)
    ensures |line| == Horizon && forall i :: 0 <= i < Horizon ==> line[i] == LoanYear(loans, years, adjustment, i)
  {
    seq(Horizon, i requires 0 <= i < Horizon => LoanYear(loans, years, adjustment, i))
  }

  /**
   * One loan's pass of the loop, for a loan whose labels were found at year
   * indices s and e: walk the years from s to e (cut at the horizon), adding
   * the adjusted installment while installments remain and counting them down.
   */
  method PayInstallments(extra: array<real>, l: Loan, s: nat, e: nat, adjustment: real)
    requires extra.Length == Horizon
    modifies extra
    ensures forall y :: 0 <= y < Horizon ==>
              extra[y] == old(extra[y]) + if s <= y < s + PaidCount(s, e, l.installments) then AdjustedInstallment(l, adjustment) else 0.0
  {
    ghost var c := PaidCount(s, e, l.installments);
    var stop := if e + 1 < Horizon then e + 1 else Horizon;
    var remaining := l.installments;
    var i := s;
    while i < stop
      invariant s <= i && (s <= stop ==> i <= stop)
      invariant remaining == if l.installments <= 0 then l.installments
                             else if l.installments < i - s then 0 else l.installments - (i - s)
      invariant forall y :: 0 <= y < Horizon ==>
                  extra[y] == old(extra[y]) + if s <= y < i && y < s + c then AdjustedInstallment(l, adjustment) else 0.0
    {
      if remaining > 0 {
        extra[i] := extra[i] + l.installmentValue * (1.0 + adjustment / 100.0);
        remaining := remaining - 1;
      }
      i := i + 1;
    }
  }

  /** The loan loop over all loans; a loan whose labels are not found is skipped. */
  method LoanSchedule(loans: seq<Loan>, years: seq<string>, adjustment: real) returns (line: seq<real>)
    ensures |line| == Horizon && forall i :: 0 <= i < Horizon ==> line[i] == LoanYear(loans, years, adjustment, i)
  {
    var extra := new real[Horizon](_ => 0.0);
    for k := 0 to |loans|
      invariant forall i :: 0 <= i < Horizon ==> extra[i] == LoanYear(loans[..k], years, adjustment, i)
    {
      var l := loans[k];
      assert loans[..k + 1][..k] == loans[..k];
      var start, end := IndexOf(years, l.startYear), IndexOf(years, l.endYear);
      if start.Some? && end.Some? {
        assert Window(l, years) == (start.value, PaidCount(start.value, end.value, l.installments));
        PayInstallments(extra, l, start.value, end.value, adjustment);
      } else {
        assert Window(l, years) == (0, 0);
      }
    }
    assert loans[..|loans|] == loans;
    line := extra[..];
  }

  /** A loan whose first or last year label is not among the years contributes nothing in any year. */
  lemma LoanOutsideYears(l: Loan, years: seq<string>, adjustment: real, i: nat)
    requires l.startYear !in years || l.endYear !in years
    ensures Installment(l, years, adjustment, i) == 0.0
  {
  }

  /** The installments a loan pays in the years before n. */
  function InstallmentsUpTo(l: Loan, years: seq<string>, adjustment: real, n: nat): real
  {
    if n == 0 then 0.0 else InstallmentsUpTo(l, years, adjustment, n - 1) + Installment(l, years, adjustment, n - 1)
  }

  /** How many of the loan's window years come before year n. */
  function PaidBefore(l: Loan, years: seq<string>, n: nat): nat
  {
    var (s, c) := Window(l, years);
    if n <= s then 0 else if n - s < c then n - s else c
  }

  /** n payments of the same amount. */
  function Times(n: nat, amount: real): real
  {
    (n as real) * amount
  }

  lemma TimesStep(n: nat, amount: real)
    ensures Times(n + 1, amount) == Times(n, amount) + amount
  {
  }

  /** Up to year n, the loan has paid its installment once per window year before n. */
  lemma {:induction false} InstallmentsCount(l: Loan, years: seq<string>, adjustment: real, n: nat)
    ensures InstallmentsUpTo(l, years, adjustment, n) == Times(PaidBefore(l, years, n), AdjustedInstallment(l, adjustment))
  {
    if n > 0 {
      InstallmentsCount(l, years, adjustment, n - 1);
      var v, k := AdjustedInstallment(l, adjustment), PaidBefore(l, years, n - 1);
      var (s, c) := Window(l, years);
      if s <= n - 1 < s + c {
        assert PaidBefore(l, years, n) == k + 1;
        assert Installment(l, years, adjustment, n - 1) == v;
        TimesStep(k, v);
      } else {
        assert PaidBefore(l, years, n) == k;
        assert Installment(l, years, adjustment, n - 1) == 0.0;
      }
    }
  }

  /**
   * Over the horizon a loan pays its adjusted installment once for each of
   * min(installments, e - s + 1, 5 - s) years, and nothing when its labels are
   * not found or it has no installment left.
   */
  lemma LoanTotalOverHorizon(l: Loan, years: seq<string>, adjustment: real)
    ensures var (s, c) := Window(l, years);
            && InstallmentsUpTo(l, years, adjustment, Horizon) == Times(c, AdjustedInstallment(l, adjustment))
            && (c > 0 ==> s + c <= Horizon && c <= l.installments)
            && (l.startYear !in years || l.endYear !in years || l.installments <= 0 ==> c == 0)
  {
    InstallmentsCount(l, years, adjustment, Horizon);
  }

  /**
   * Three installments of 1000 from the second to the fifth year: paid in the
   * second, third and fourth years, raised 10% in the pessimistic scenario.
   */
  lemma LoanExample()
    ensures var years := ["Ano 1", "Ano 2", "Ano 3", "Ano 4", "Ano 5"];
            var l := Loan("Ano 2", "Ano 5", 3, 1000.0);
            Window(l, years) == (1, 3)
            && Installment(l, years, 10.0, 0) == 0.0
            && Installment(l, years, 10.0, 1) == 1100.0
            && Installment(l, years, 10.0, 3) == 1100.0
            && Installment(l, years, 10.0, 4) == 0.0
  {
    var years := ["Ano 1", "Ano 2", "Ano 3", "Ano 4", "Ano 5"];
    assert years[0] != "Ano 2" && years[0] != "Ano 5";
    assert years[1] != "Ano 5" && years[2] != "Ano 5" && years[3] != "Ano 5";
    assert IndexOf(years, "Ano 2") == Some(1);
    assert IndexOf(years, "Ano 5") == Some(4);
  }

  // ---------------------------------------------------------------------------
  // The statement

  /** The subtotal chain and the net profit, given the expense lines and the result tax. */
  function Close(revenue: seq<real>, salesTax: seq<real>, operational: seq<real>, administrative: seq<real>,
                 hr: seq<real>, extraOperational: seq<real>, dividends: seq<real>, extraRevenue: seq<real>,
                 givenTax: Option<seq<real>>): (s: Statement)
    requires |revenue| >= Horizon && |salesTax| >= Horizon && |operational| >= Horizon && |administrative| >= Horizon
    requires |hr| >= Horizon && |extraOperational| >= Horizon && |dividends| >= Horizon && |extraRevenue| >= Horizon
    requires givenTax.Some? ==> |givenTax.value| >= Horizon
    ensures s.revenue == revenue && s.salesTax == salesTax && s.operational == operational
    ensures s.administrative == administrative && s.hr == hr && s.extraOperational == extraOperational
    ensures s.dividends == dividends && s.extraRevenue == extraRevenue
    ensures |s.resultTax| >= Horizon && |s.margin| == |s.operatingResult| == |s.operatingProfit| == |s.netProfit| == Horizon
    ensures givenTax.Some? ==> s.resultTax == givenTax.value
    ensures givenTax.None? ==> s.resultTax == ResultTax(s.operatingProfit)
    ensures Balanced(s)
  {
    var margin := Diff(Diff(revenue, salesTax), operational);
    var result := Diff(Diff(margin, administrative), hr);
    var profit := Diff(result, extraOperational);
    var tax := if givenTax.Some? then givenTax.value else ResultTax(profit);
    var net := Plus(Diff(Diff(profit, tax), dividends), extraRevenue);
    Statement(revenue, salesTax, operational, administrative, hr, extraOperational, dividends, extraRevenue,
              tax, margin, result, profit, net)
  }

  /** Every line of a statement covers the horizon. */
  predicate Spanned(s: Statement)
  {
    && |s.revenue| >= Horizon && |s.salesTax| >= Horizon && |s.operational| >= Horizon && |s.administrative| >= Horizon
    && |s.hr| >= Horizon && |s.extraOperational| >= Horizon && |s.dividends| >= Horizon && |s.extraRevenue| >= Horizon
    && |s.resultTax| >= Horizon && |s.margin| >= Horizon && |s.operatingResult| >= Horizon
    && |s.operatingProfit| >= Horizon && |s.netProfit| >= Horizon
  }

  /**
   * A statement that loses nothing on the way down: every line covers the
   * horizon and, year by year, net profit is revenue less the seven expense
   * and tax lines plus the extra revenue.
   */
  predicate Balanced(s: Statement)
  {
    Spanned(s) && forall i :: 0 <= i < Horizon ==> s.netProfit[i] == s.revenue[i] - TotalExpenses(s, i) + s.extraRevenue[i]
  }

  /** The statement of a scenario, or the error the call raises. */
  function Dre(scenario: string, inflation: seq<real>, years: seq<string>, revenues: map<string, seq<real>>,
               extraRevenues: map<string, seq<real>>, expenses: seq<Expense>, loans: seq<Loan>,
               pess: real, otm: real, adjusted: Option<map<string, seq<real>>>): (r: Result<Statement, DreError>)
    requires |inflation| >= Horizon && Spans(revenues) && Spans(extraRevenues)
    requires adjusted.Some? ==> Spans(adjusted.value)
    ensures r.Success? <==> (adjusted.None? || Complete(adjusted.value)) && scenario in revenues && "Extra Operacional" in extraRevenues
    ensures r.Success? ==> r.value.revenue == revenues[scenario] && r.value.extraRevenue == extraRevenues["Extra Operacional"]
    ensures r.Success? ==> Balanced(r.value)
  {
    if adjusted.Some? && !Complete(adjusted.value) then Failure(IncompleteFlow)
    else if scenario !in revenues then Failure(UnknownScenario)
    else if "Extra Operacional" !in extraRevenues then Failure(MissingExtraRevenue)
    else
      var revenue, extraRevenue := revenues[scenario], extraRevenues["Extra Operacional"];
      match adjusted
      case Some(flow) => Success(FromFlow(revenue, extraRevenue, flow))
      case None => Success(Recomputed(revenue, extraRevenue, inflation, years, expenses, loans, Adjustment(scenario, pess, otm)))
  }

  /** The adjusted path: the seven expense and tax lines copied from the flow. */
  function FromFlow(revenue: seq<real>, extraRevenue: seq<real>, flow: map<string, seq<real>>): (s: Statement)
    requires |revenue| >= Horizon && |extraRevenue| >= Horizon && Spans(flow) && Complete(flow)
    ensures Balanced(s) && s.revenue == revenue && s.extraRevenue == extraRevenue
  {
    assert |flow["Impostos Sobre Venda"]| >= Horizon && |flow["Despesas Operacionais"]| >= Horizon;
    assert |flow["Despesas Administrativas"]| >= Horizon && |flow["Despesas RH"]| >= Horizon;
    assert |flow["Despesas Extra Operacional"]| >= Horizon && |flow["Dividendos"]| >= Horizon;
    assert |flow["Impostos Sobre Resultado"]| >= Horizon;
    Close(revenue, flow["Impostos Sobre Venda"], flow["Despesas Operacionais"], flow["Despesas Administrativas"],
          flow["Despesas RH"], flow["Despesas Extra Operacional"], flow["Dividendos"], extraRevenue,
          Some(flow["Impostos Sobre Resultado"]))
  }

  /** The recompute path: category lines shifted by the scenario's adjustment, and the loans' line. */
  function Recomputed(revenue: seq<real>, extraRevenue: seq<real>, inflation: seq<real>, years: seq<string>,
                      expenses: seq<Expense>, loans: seq<Loan>, a: real): (s: Statement)
    requires |revenue| >= Horizon && |extraRevenue| >= Horizon && |inflation| >= Horizon
    ensures Balanced(s) && s.revenue == revenue && s.extraRevenue == extraRevenue
  {
    Close(revenue, SalesTax(revenue),
          ExpenseLine(CategoryTotal(expenses, "Operacional"), inflation, a),
          ExpenseLine(CategoryTotal(expenses, "Administrativa"), inflation, a),
          ExpenseLine(CategoryTotal(expenses, "RH"), inflation, a),
          LoanLine(loans, years, a),
          ExpenseLine(CategoryTotal(expenses, "Dividendos"), inflation, a),
          extraRevenue, None)
  }

  /** `calcular_dre`: the loan loop runs, then the statement is assembled. */
  method CalculateDre(scenario: string, inflation: seq<real>, years: seq<string>, revenues: map<string, seq<real>>,
                      extraRevenues: map<string, seq<real>>, expenses: seq<Expense>, loans: seq<Loan>,
                      pess: real, otm: real, adjusted: Option<map<string, seq<real>>>)
      returns (r: Result<Statement, DreError>)
    requires |inflation| >= Horizon && Spans(revenues) && Spans(extraRevenues)
    requires adjusted.Some? ==> Spans(adjusted.value)
    ensures r == Dre(scenario, inflation, years, revenues, extraRevenues, expenses, loans, pess, otm, adjusted)
  {
    if adjusted.Some? && !Complete(adjusted.value) {
      return Failure(IncompleteFlow);
    }
    if scenario !in revenues {
      return Failure(UnknownScenario);
    }
    var revenue := revenues[scenario];
    if adjusted.None? {
      var a := Adjustment(scenario, pess, otm);
      var extra := LoanSchedule(loans, years, a);
      assert extra == LoanLine(loans, years, a);
      if "Extra Operacional" !in extraRevenues {
        return Failure(MissingExtraRevenue);
      }
      r := Success(Close(revenue, SalesTax(revenue),
                         ExpenseLine(CategoryTotal(expenses, "Operacional"), inflation, a),
                         ExpenseLine(CategoryTotal(expenses, "Administrativa"), inflation, a),
                         ExpenseLine(CategoryTotal(expenses, "RH"), inflation, a),
                         extra,
                         ExpenseLine(CategoryTotal(expenses, "Dividendos"), inflation, a),
                         extraRevenues["Extra Operacional"], None));
    } else {
      if "Extra Operacional" !in extraRevenues {
        return Failure(MissingExtraRevenue);
      }
      var flow := adjusted.value;
      r := Success(Close(revenue, flow["Impostos Sobre Venda"], flow["Despesas Operacionais"], flow["Despesas Administrativas"],
                         flow["Despesas RH"], flow["Despesas Extra Operacional"], flow["Dividendos"],
                         extraRevenues["Extra Operacional"], Some(flow["Impostos Sobre Resultado"])));
    }
  }

  /** The call fails exactly when the adjusted flow is incomplete, the scenario has no revenue or the extra revenues lack their entry. */
  lemma DreFailures(scenario: string, inflation: seq<real>, years: seq<string>, revenues: map<string, seq<real>>,
                    extraRevenues: map<string, seq<real>>, expenses: seq<Expense>, loans: seq<Loan>,
                    pess: real, otm: real, adjusted: Option<map<string, seq<real>>>)
    requires |inflation| >= Horizon && Spans(revenues) && Spans(extraRevenues)
    requires adjusted.Some? ==> Spans(adjusted.value)
    ensures var r := Dre(scenario, inflation, years, revenues, extraRevenues, expenses, loans, pess, otm, adjusted);
            && (adjusted.Some? && !Complete(adjusted.value) ==> r == Failure(IncompleteFlow))
            && (r.Success? <==> (adjusted.None? || Complete(adjusted.value)) && scenario in revenues && "Extra Operacional" in extraRevenues)
  {
  }

  /** On the adjusted path the seven expense and tax lines are the flow's own, copied as they are. */
  lemma AdjustedLinesCopied(scenario: string, inflation: seq<real>, years: seq<string>, revenues: map<string, seq<real>>,
                            extraRevenues: map<string, seq<real>>, expenses: seq<Expense>, loans: seq<Loan>,
                            pess: real, otm: real, flow: map<string, seq<real>>)
    requires |inflation| >= Horizon && Spans(revenues) && Spans(extraRevenues) && Spans(flow)
    requires Complete(flow) && scenario in revenues && "Extra Operacional" in extraRevenues
    ensures var s := Dre(scenario, inflation, years, revenues, extraRevenues, expenses, loans, pess, otm, Some(flow)).value;
            && s.revenue == revenues[scenario]
            && s.operational == flow["Despesas Operacionais"] && s.administrative == flow["Despesas Administrativas"]
            && s.hr == flow["Despesas RH"] && s.extraOperational == flow["Despesas Extra Operacional"]
            && s.salesTax == flow["Impostos Sobre Venda"] && s.resultTax == flow["Impostos Sobre Resultado"]
            && s.dividends == flow["Dividendos"] && s.extraRevenue == extraRevenues["Extra Operacional"]
  {
  }

  /**
   * On the recompute path: revenue as given, sales tax at 4.85% of every
   * year's revenue, each category line from its exact-category total, the
   * loans' line from the schedule, and result tax from the operating profit.
   */
  lemma RecomputedLines(scenario: string, inflation: seq<real>, years: seq<string>, revenues: map<string, seq<real>>,
                        extraRevenues: map<string, seq<real>>, expenses: seq<Expense>, loans: seq<Loan>,
                        pess: real, otm: real)
    requires |inflation| >= Horizon && Spans(revenues) && Spans(extraRevenues)
    requires scenario in revenues && "Extra Operacional" in extraRevenues
    ensures var s := Dre(scenario, inflation, years, revenues, extraRevenues, expenses, loans, pess, otm, None).value;
            var a := Adjustment(scenario, pess, otm);
            && s.revenue == revenues[scenario]
            && |s.salesTax| == |s.revenue| && (forall i :: 0 <= i < |s.revenue| ==> s.salesTax[i] == s.revenue[i] * 0.0485)
            && s.operational == ExpenseLine(CategoryTotal(expenses, "Operacional"), inflation, a)
            && s.administrative == ExpenseLine(CategoryTotal(expenses, "Administrativa"), inflation, a)
            && s.hr == ExpenseLine(CategoryTotal(expenses, "RH"), inflation, a)
            && s.dividends == ExpenseLine(CategoryTotal(expenses, "Dividendos"), inflation, a)
            && (forall i :: 0 <= i < Horizon ==> s.extraOperational[i] == LoanYear(loans, years, a, i))
            && s.extraRevenue == extraRevenues["Extra Operacional"]
            && s.resultTax == ResultTax(s.operatingProfit)
  {
  }

  /** The subtotal chain of every statement, year by year. */
  lemma SubtotalChain(s: Statement, revenue: seq<real>, salesTax: seq<real>, operational: seq<real>, administrative: seq<real>,
                      hr: seq<real>, extraOperational: seq<real>, dividends: seq<real>, extraRevenue: seq<real>,
                      givenTax: Option<seq<real>>, i: nat)
    requires |revenue| >= Horizon && |salesTax| >= Horizon && |operational| >= Horizon && |administrative| >= Horizon
    requires |hr| >= Horizon && |extraOperational| >= Horizon && |dividends| >= Horizon && |extraRevenue| >= Horizon
    requires givenTax.Some? ==> |givenTax.value| >= Horizon
    requires s == Close(revenue, salesTax, operational, administrative, hr, extraOperational, dividends, extraRevenue, givenTax)
    requires i < Horizon
    ensures s.margin[i] == s.revenue[i] - s.salesTax[i] - s.operational[i]
    ensures s.operatingResult[i] == s.margin[i] - s.administrative[i] - s.hr[i]
    ensures s.operatingProfit[i] == s.operatingResult[i] - s.extraOperational[i]
    ensures s.netProfit[i] == s.operatingProfit[i] - s.resultTax[i] - s.dividends[i] + s.extraRevenue[i]
  {
  }

  /**
   * Net profit is revenue less the seven expense and tax lines plus the extra
   * revenue: the subtotals lose nothing on the way down.
   */
  lemma NetProfitIdentity(s: Statement, revenue: seq<real>, salesTax: seq<real>, operational: seq<real>, administrative: seq<real>,
                          hr: seq<real>, extraOperational: seq<real>, dividends: seq<real>, extraRevenue: seq<real>,
                          givenTax: Option<seq<real>>, i: nat)
    requires |revenue| >= Horizon && |salesTax| >= Horizon && |operational| >= Horizon && |administrative| >= Horizon
    requires |hr| >= Horizon && |extraOperational| >= Horizon && |dividends| >= Horizon && |extraRevenue| >= Horizon
    requires givenTax.Some? ==> |givenTax.value| >= Horizon
    requires s == Close(revenue, salesTax, operational, administrative, hr, extraOperational, dividends, extraRevenue, givenTax)
    requires i < Horizon
    ensures s.netProfit[i] == s.revenue[i] - TotalExpenses(s, i) + s.extraRevenue[i]
  {
    SubtotalChain(s, revenue, salesTax, operational, administrative, hr, extraOperational, dividends, extraRevenue, givenTax, i);
  }

  /** The seven expense and tax lines of a year, added up. */
  function TotalExpenses(s: Statement, i: nat): real
    requires i < |s.salesTax| && i < |s.operational| && i < |s.administrative| && i < |s.hr|
    requires i < |s.extraOperational| && i < |s.dividends| && i < |s.resultTax|
  {
    s.salesTax[i] + s.operational[i] + s.administrative[i] + s.hr[i] + s.extraOperational[i] + s.dividends[i] + s.resultTax[i]
  }

  /** When the statement computes its own result tax, that tax is never negative. */
  lemma ResultTaxNonNegative(scenario: string, inflation: seq<real>, years: seq<string>, revenues: map<string, seq<real>>,
                             extraRevenues: map<string, seq<real>>, expenses: seq<Expense>, loans: seq<Loan>,
                             pess: real, otm: real, i: nat)
    requires |inflation| >= Horizon && Spans(revenues) && Spans(extraRevenues) && i < Horizon
    requires scenario in revenues && "Extra Operacional" in extraRevenues
    ensures var s := Dre(scenario, inflation, years, revenues, extraRevenues, expenses, loans, pess, otm, None).value;
            s.resultTax[i] >= 0.0 && (s.operatingProfit[i] > 0.0 ==> s.resultTax[i] == s.operatingProfit[i] * 0.15)
  {
    var s := Dre(scenario, inflation, years, revenues, extraRevenues, expenses, loans, pess, otm, None).value;
    ResultTaxBounds(s.operatingProfit, i);
  }
}
