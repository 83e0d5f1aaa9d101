/**
 * The five-year cash-flow page: the revenue projection from the registered
 * plantings, the per-crop revenue chart, the consolidated cash-flow frame
 * rebuilt from the stored expense flow (revenue, sales tax, result tax and
 * net profit rows), and the page's own income statement.
 */
module CashFlow {
  import opened Common
  import opened Ledger
  import opened Frames
  import opened Plantings
  import opened Expenses
  import Dre

  const RevenueRow: string := "Receita Estimada"
  const NetRow: string := "Lucro Líquido"
  const SalesTaxRow: string := "Impostos Sobre Venda"
  const ResultTaxRow: string := "Impostos Sobre Resultado"

  /** The two computed rows the page drops from the stored flow before rebuilding them. */
  const Computed: set<string> := {RevenueRow, NetRow}

  /** The yearly rate used when the scenario page has not stored one. */
  const DefaultInflation: real := 4.0
  const InflationKeys: seq<string> := ["inf_0", "inf_1", "inf_2", "inf_3", "inf_4"]

  const Zeros: seq<real> := [0.0, 0.0, 0.0, 0.0, 0.0]

  /** Why the page stops with a warning instead of showing the projection. */
  datatype Stop = NoPlantings | NoExpenseFlow | IncompletePlantings

  // ---------------------------------------------------------------------------
  // Guards

  /**
   * The checks at the top of the page as written: a planting must be
   * registered and the "fluxo_caixa" key must exist, whatever it holds.
   */
  function GuardAsWritten(ps: seq<Planting>, flow: Slot<Table>): (r: Option<Stop>)
    ensures r.None? <==> ps != [] && flow != Absent
  {
    if ps == [] then Some(NoPlantings) else if flow == Absent then Some(NoExpenseFlow) else None
  }

  /** The checks as intended: the flow must hold a frame, so a cleared flow stops the page too. */
  function Guard(ps: seq<Planting>, flow: Slot<Table>): (r: Option<Stop>)
    ensures r.None? <==> ps != [] && flow.Holds?
    ensures ps == [] ==> r == Some(NoPlantings)
  {
    if ps == [] then Some(NoPlantings) else if !flow.Holds? then Some(NoExpenseFlow) else None
  }

  /**
   * After "clear all" on the expense page the key holds None: the guard as
   * written lets the page go on to drop rows from a frame that does not exist.
   */
  lemma ClearedFlowPassesGuard(ps: seq<Planting>)
    requires ps != []
    ensures GuardAsWritten(ps, Null).None?
    ensures Guard(ps, Null) == Some(NoExpenseFlow)
  {
  }

  /** The two guards differ only on a cleared flow. */
  lemma GuardsAgreeOnStoredFlows(ps: seq<Planting>, flow: Slot<Table>)
    requires flow != Null
    ensures Guard(ps, flow) == GuardAsWritten(ps, flow)
  {
  }

  // ---------------------------------------------------------------------------
  // Inflation and the revenue projection

  /** The five yearly rates: the stored `inf_i`, or 4% where the scenario page stored none. */
  function InflationRates(stored: map<string, real>): (rates: seq<real>)
    ensures |rates| == Horizon
    ensures forall i :: 0 <= i < Horizon && InflationKeys[i] in stored ==> rates[i] == stored[InflationKeys[i]]
    ensures forall i :: 0 <= i < Horizon && InflationKeys[i] !in stored ==> rates[i] == DefaultInflation
  {
    seq(Horizon, i requires 0 <= i < Horizon => if InflationKeys[i] in stored then stored[InflationKeys[i]] else DefaultInflation)
  }

  /** With nothing stored every rate is 4%, and the second year's factor is 1.0816. */
  lemma DefaultInflationFactors()
    ensures InflationRates(map[]) == [4.0, 4.0, 4.0, 4.0, 4.0]
    ensures Factor(InflationRates(map[]), 1) == 1.0816
  {
    FactorFlatFourPercent();
  }

  /** Area × mean sacks per hectare × mean price per sack collapses to the summed value of the harvest. */
  lemma AverageRouteCollapses(hectares: real, sacks: real, value: real)
    requires hectares != 0.0 && sacks != 0.0
    ensures hectares * ((sacks / hectares) * (value / sacks)) == value
  {
    assert hectares * (sacks / hectares) == sacks;
    assert hectares * ((sacks / hectares) * (value / sacks)) == (hectares * (sacks / hectares)) * (value / sacks);
  }

  /** A base-year amount carried through the horizon: each year its value times that year's cumulative factor. */
  function Projected(value: real, inflation: seq<real>): (line: seq<real>)
    requires |inflation| >= Horizon
    ensures |line| == Horizon
    ensures forall i :: 0 <= i < Horizon ==> line[i] == Inflated(value, Factor(inflation, i))
  {
    seq(Horizon, i requires 0 <= i < Horizon => Inflated(value, Factor(inflation, i)))
  }

  /**
   * The page's projection loop: area × (mean sacks per hectare × mean price)
   * × factor, year by year. The guard before it ensures both divisors are
   * non-zero, and the averages then cancel to the summed harvest value.
   */
  method ProjectRevenue(hectares: real, sacks: real, value: real, inflation: seq<real>) returns (revenue: seq<real>)
    requires hectares != 0.0 && sacks != 0.0 && |inflation| >= Horizon
    ensures revenue == Projected(value, inflation)
  {
    var meanSacks := sacks / hectares;
    var meanPrice := value / sacks;
    var meanRevenue := meanSacks * meanPrice;
    AverageRouteCollapses(hectares, sacks, value);
    revenue := [];
    for i := 0 to Horizon
      invariant |revenue| == i
      invariant forall y :: 0 <= y < i ==> revenue[y] == Inflated(value, Factor(inflation, y))
    {
      var factor := Factor(inflation, i);
      var amount := hectares * meanRevenue * factor;
      ScaleEqual(amount, hectares * meanRevenue, value, factor, factor);
      revenue := revenue + [amount];
    }
  }

  // ---------------------------------------------------------------------------
  // Revenue per planting and per crop

  /** The registered plantings as `plantios.items()`: ids are dict keys, so no id appears twice. */
  predicate DistinctKeys(entries: seq<(string, Planting)>)
  {
    forall a, b :: 0 <= a < b < |entries| ==> entries[a].0 != entries[b].0
  }

  /** `plantios.values()`. */
  function Records(entries: seq<(string, Planting)>): (ps: seq<Planting>)
    ensures |ps| == |entries| && forall j :: 0 <= j < |entries| ==> ps[j] == entries[j].1
  {
    seq(|entries|, j requires 0 <= j < |entries| => entries[j].1)
  }

  /** One planting's five-year revenue: all zeros when its area, yield or price is zero. */
  function PlantingLine(p: Planting, inflation: seq<real>): (line: seq<real>)
    requires |inflation| >= Horizon
    ensures |line| == Horizon
  {
    if p.hectares == 0.0 || p.yieldPerHectare == 0.0 || p.pricePerSack == 0.0 then Zeros
    else Projected(GrossValue(p), inflation)
  }

  /** The zero shortcut changes no value: every year is the planting's gross value carried by the factor. */
  lemma PlantingLineValue(p: Planting, inflation: seq<real>, i: nat)
    requires |inflation| >= Horizon && i < Horizon
    ensures PlantingLine(p, inflation)[i] == Inflated(GrossValue(p), Factor(inflation, i))
  {
    if p.hectares == 0.0 {
      assert GrossValue(p) == 0.0;
    } else if p.yieldPerHectare == 0.0 {
      assert GrossValue(p) == 0.0;
    } else if p.pricePerSack == 0.0 {
      assert GrossValue(p) == 0.0;
    }
  }

  /** The frame of per-planting revenues, one row per planting id. */
  function PlantingTable(entries: seq<(string, Planting)>, inflation: seq<real>): (t: Table)
    requires |inflation| >= Horizon
    ensures |t| == |entries| && HasWidth(t, Horizon)
    ensures forall j :: 0 <= j < |entries| ==> t[j] == (entries[j].0, PlantingLine(entries[j].1, inflation))
  {
    seq(|entries|, j requires 0 <= j < |entries| => (entries[j].0, PlantingLine(entries[j].1, inflation)))
  }

  /** The loop filling `plantio_receitas_data`, a year at a time for each planting. */
  method PlantingRevenues(entries: seq<(string, Planting)>, inflation: seq<real>) returns (t: Table)
    requires DistinctKeys(entries) && |inflation| >= Horizon
    ensures t == PlantingTable(entries, inflation)
  {
    t := [];
    for j := 0 to |entries|
      invariant |t| == j
      invariant forall m :: 0 <= m < j ==> t[m] == (entries[m].0, PlantingLine(entries[m].1, inflation))
    {
      var (id, p) := entries[j];
      if p.hectares == 0.0 || p.yieldPerHectare == 0.0 || p.pricePerSack == 0.0 {
        t := t + [(id, Zeros)];
        continue;
      }
      var base := p.hectares * p.yieldPerHectare * p.pricePerSack;
      var line := CarryForward(base, inflation);
      t := t + [(id, line)];
    }
  }

  /** The inner loop of the per-planting projection: the base-year value times each year's factor. */
  method CarryForward(base: real, inflation: seq<real>) returns (line: seq<real>)
    requires |inflation| >= Horizon
    ensures line == Projected(base, inflation)
  {
    line := [];
    for i := 0 to Horizon
      invariant |line| == i
      invariant forall y :: 0 <= y < i ==> line[y] == Inflated(base, Factor(inflation, y))
    {
      var factor := Factor(inflation, i);
      line := line + [base * factor];
    }
  }

  /** The columns renamed from planting id to crop (`plantios[k]["cultura"]`). */
  function ByCrop(t: Table, entries: seq<(string, Planting)>): (r: Table)
    requires |t| == |entries|
    ensures |r| == |t| && forall j :: 0 <= j < |t| ==> r[j] == (entries[j].1.crop, t[j].1)
  {
    seq(|t|, j requires 0 <= j < |t| => (entries[j].1.crop, t[j].1))
  }

  /** `df_temp.groupby(level=0, axis=1).sum()`: one revenue row per crop. */
  function CropRevenues(entries: seq<(string, Planting)>, inflation: seq<real>): (r: Table)
    requires |inflation| >= Horizon
    ensures DistinctRows(r) && HasWidth(r, Horizon)
  {
    GroupTableRows(ByCrop(PlantingTable(entries, inflation), entries), Horizon, RevenueRow);
    GroupTable(ByCrop(PlantingTable(entries, inflation), entries), Horizon)
  }

  /** Each planting's crop and base-year gross value. */
  function Harvest(entries: seq<(string, Planting)>): (g: seq<Entry>)
    ensures |g| == |entries| && forall j :: 0 <= j < |entries| ==> g[j] == (entries[j].1.crop, GrossValue(entries[j].1))
  {
    seq(|entries|, j requires 0 <= j < |entries| => (entries[j].1.crop, GrossValue(entries[j].1)))
  }

  lemma {:induction false} HarvestTotal(entries: seq<(string, Planting)>)
    ensures Total(Harvest(entries)) == TotalValue(Records(entries))
  {
    if entries != [] {
      var n := |entries| - 1;
      HarvestTotal(entries[..n]);
      assert Harvest(entries) == Harvest(entries[..n]) + [Harvest(entries)[n]];
      assert Records(entries)[..n] == Records(entries[..n]);
      TotalSnoc(Harvest(entries[..n]), Harvest(entries)[n]);
    }
  }

  /** The crop chart has one row per registered crop and no crop twice. */
  lemma CropRevenueRows(entries: seq<(string, Planting)>, inflation: seq<real>, crop: string)
    requires |inflation| >= Horizon
    ensures DistinctRows(CropRevenues(entries, inflation))
    ensures HasRow(CropRevenues(entries, inflation), crop) <==> exists j :: 0 <= j < |entries| && entries[j].1.crop == crop
  {
    var b := ByCrop(PlantingTable(entries, inflation), entries);
    GroupTableRows(b, Horizon, crop);
    if exists j :: 0 <= j < |entries| && entries[j].1.crop == crop {
      var j :| 0 <= j < |entries| && entries[j].1.crop == crop;
      assert b[j].0 == crop;
    }
  }

  /** Each crop's revenue in a year is the summed gross value of that crop's plantings, carried by the year's factor. */
  lemma CropRevenueCell(entries: seq<(string, Planting)>, inflation: seq<real>, j: nat, i: nat)
    requires |inflation| >= Horizon && i < Horizon && j < |CropRevenues(entries, inflation)|
    ensures CropRevenues(entries, inflation)[j].1[i]
            == Inflated(SumFor(Harvest(entries), CropRevenues(entries, inflation)[j].0), Factor(inflation, i))
  {
    var b := ByCrop(PlantingTable(entries, inflation), entries);
    var c := CropRevenues(entries, inflation);
    var f := Factor(inflation, i);
    GroupTableCell(b, Horizon, j, i);
    forall m | 0 <= m < |b| ensures Column(b, i)[m].0 == Harvest(entries)[m].0 && Column(b, i)[m].1 == Inflated(Harvest(entries)[m].1, f) {
      PlantingLineValue(entries[m].1, inflation, i);
    }
    SumForScale(Column(b, i), Harvest(entries), f, c[j].0);
  }

  /** Summed over the crops, each year's chart adds up to the projected revenue of that year. */
  lemma CropTotals(entries: seq<(string, Planting)>, inflation: seq<real>, i: nat)
    requires |inflation| >= Horizon && i < Horizon
    ensures ColumnTotal(CropRevenues(entries, inflation), i) == Projected(TotalValue(Records(entries)), inflation)[i]
  {
    var b := ByCrop(PlantingTable(entries, inflation), entries);
    var f := Factor(inflation, i);
    GroupTableColumnTotal(b, Horizon, i);
    forall m | 0 <= m < |b| ensures Cell(b[m].1, i) == Inflated(Harvest(entries)[m].1, f) {
      PlantingLineValue(entries[m].1, inflation, i);
    }
    InflatedColumnTotal(Harvest(entries), b, i, f);
    HarvestTotal(entries);
  }

  // ---------------------------------------------------------------------------
  // The consolidated cash-flow frame

  /** `if not df.index.is_unique: df = df.groupby(df.index).sum()`. */
  function Consolidate(t: Table): (r: Table)
    ensures DistinctRows(r)
    ensures forall i :: 0 <= i < Horizon ==> ColumnTotal(r, i) == ColumnTotal(t, i)
  {
    if DistinctRows(t) then t
    else
      GroupTableRows(t, Horizon, RevenueRow);
      assert forall i :: 0 <= i < Horizon ==> ColumnTotal(GroupTable(t, Horizon), i) == ColumnTotal(t, i) by {
        forall i | 0 <= i < Horizon {
          GroupTableColumnTotal(t, Horizon, i);
        }
      }
      GroupTable(t, Horizon)
  }

  /** The stored flow without its computed rows, with stripped names and duplicated names summed. */
  function ExpenseRows(stored: Table): (r: Table)
    ensures DistinctRows(r)
  {
    Consolidate(StripNames(DropRows(stored, Computed)))
  }

  /** Revenue less, year by year, the total of the rows left after dropping the named ones. */
  function Remaining(t: Table, revenue: seq<real>, names: set<string>): (r: seq<real>)
    requires |revenue| >= Horizon
    ensures |r| == Horizon && forall i :: 0 <= i < Horizon ==> r[i] == revenue[i] - ColumnTotal(DropRows(t, names), i)
  {
    seq(Horizon, i requires 0 <= i < Horizon => revenue[i] - ColumnTotal(DropRows(t, names), i))
  }

  /** The frame after the revenue row and the 4.85% sales-tax row are assigned. */
  function WithSalesTax(stored: Table, revenue: seq<real>): (t: Table)
    ensures DistinctRows(t)
    ensures RowValue(t, RevenueRow) == revenue && RowValue(t, SalesTaxRow) == Dre.SalesTax(revenue)
    ensures forall k :: k != RevenueRow && k != SalesTaxRow ==> RowValue(t, k) == RowValue(ExpenseRows(stored), k)
  {
    var t0 := ExpenseRows(stored);
    var t1 := SetRow(t0, RevenueRow, revenue);
    var t2 := SetRow(t1, SalesTaxRow, Dre.SalesTax(revenue));
    SetRowDistinct(t0, RevenueRow, revenue);
    SetRowDistinct(t1, SalesTaxRow, Dre.SalesTax(revenue));
    RowValueSet(t1, SalesTaxRow, Dre.SalesTax(revenue), RevenueRow);
    RowValueSet(t0, RevenueRow, revenue, RevenueRow);
    RowValueSet(t1, SalesTaxRow, Dre.SalesTax(revenue), SalesTaxRow);
    assert forall k :: k != RevenueRow && k != SalesTaxRow ==> RowValue(t2, k) == RowValue(t0, k) by {
      forall k | k != RevenueRow && k != SalesTaxRow ensures RowValue(t2, k) == RowValue(t0, k) {
        RowValueSet(t1, SalesTaxRow, Dre.SalesTax(revenue), k);
        RowValueSet(t0, RevenueRow, revenue, k);
      }
    }
    t2
  }

  /** Then the result-tax row: 15% of revenue less every other row, when that is positive. */
  function WithResultTax(stored: Table, revenue: seq<real>): (r: Table)
    requires |revenue| >= Horizon
    ensures DistinctRows(r)
    ensures RowValue(r, ResultTaxRow) == Dre.ResultTax(Remaining(WithSalesTax(stored, revenue), revenue, Computed))
    ensures forall k :: k != ResultTaxRow ==> RowValue(r, k) == RowValue(WithSalesTax(stored, revenue), k)
  {
    var t := WithSalesTax(stored, revenue);
    var tax := Dre.ResultTax(Remaining(t, revenue, Computed));
    SetRowDistinct(t, ResultTaxRow, tax);
    RowValueSet(t, ResultTaxRow, tax, ResultTaxRow);
    assert forall k :: k != ResultTaxRow ==> RowValue(SetRow(t, ResultTaxRow, tax), k) == RowValue(t, k) by {
      forall k | k != ResultTaxRow {
        RowValueSet(t, ResultTaxRow, tax, k);
      }
    }
    SetRow(t, ResultTaxRow, tax)
  }

  /** Then the net-profit row: revenue less every row but the revenue row. */
  function WithNet(stored: Table, revenue: seq<real>): (r: Table)
    requires |revenue| >= Horizon
    ensures DistinctRows(r)
    ensures RowValue(r, NetRow) == Remaining(WithResultTax(stored, revenue), revenue, {RevenueRow})
    ensures forall k :: k != NetRow ==> RowValue(r, k) == RowValue(WithResultTax(stored, revenue), k)
  {
    var t := WithResultTax(stored, revenue);
    var net := Remaining(t, revenue, {RevenueRow});
    SetRowDistinct(t, NetRow, net);
    RowValueSet(t, NetRow, net, NetRow);
    assert forall k :: k != NetRow ==> RowValue(SetRow(t, NetRow, net), k) == RowValue(t, k) by {
      forall k | k != NetRow {
        RowValueSet(t, NetRow, net, k);
      }
    }
    SetRow(t, NetRow, net)
  }

  /** `df.loc[ordem]`: the revenue row first, the net-profit row last, the others in their order between. */
  function Reorder(t: Table): (r: Table)
    ensures |r| == |DropRows(t, Computed)| + 2 && r[1..|r| - 1] == DropRows(t, Computed)
    ensures r[0] == (RevenueRow, RowValue(t, RevenueRow)) && r[|r| - 1] == (NetRow, RowValue(t, NetRow))
  {
    [(RevenueRow, RowValue(t, RevenueRow))] + DropRows(t, Computed) + [(NetRow, RowValue(t, NetRow))]
  }

  /** The consolidated cash-flow frame the page shows. */
  function CashFlowTable(stored: Table, revenue: seq<real>): (r: Table)
    requires |revenue| >= Horizon
    ensures DistinctRows(r) && |r| >= 2
    ensures r[0] == (RevenueRow, revenue) && r[|r| - 1].0 == NetRow
  {
    ReorderDistinct(WithNet(stored, revenue));
    Reorder(WithNet(stored, revenue))
  }

  /** Reordering moves rows but changes no row and adds only the two computed names. */
  lemma ReorderKeeps(t: Table, k: string)
    ensures RowValue(Reorder(t), k) == RowValue(t, k)
    ensures HasRow(Reorder(t), k) <==> HasRow(t, k) || k in Computed
    ensures DistinctRows(t) ==> DistinctRows(Reorder(t))
  {
    ReorderValue(t, k);
    var d := DropRows(t, Computed);
    var head: Table := [(RevenueRow, RowValue(t, RevenueRow))];
    var tail: Table := [(NetRow, RowValue(t, NetRow))];
    assert Reorder(t) == head + (d + tail);
    DropRowsHas(t, Computed, k);
    HasRowAppend(head, d + tail, k);
    HasRowAppend(d, tail, k);
    if DistinctRows(t) {
      ReorderDistinct(t);
    }
  }

  lemma ReorderValue(t: Table, k: string)
    ensures RowValue(Reorder(t), k) == RowValue(t, k)
  {
    var d := DropRows(t, Computed);
    var head: Table := [(RevenueRow, RowValue(t, RevenueRow))];
    var tail: Table := [(NetRow, RowValue(t, NetRow))];
    assert Reorder(t) == head + (d + tail);
    RowValueAppend(head, d + tail, k);
    RowValueAppend(d, tail, k);
    DropRowsHas(t, Computed, k);
    RowValueFound(d, k);
    if k !in Computed {
      RowValueDrop(t, Computed, k);
    }
  }

  lemma ReorderDistinct(t: Table)
    requires DistinctRows(t)
    ensures DistinctRows(Reorder(t))
  {
    var d := DropRows(t, Computed);
    var head: Table := [(RevenueRow, RowValue(t, RevenueRow))];
    var tail: Table := [(NetRow, RowValue(t, NetRow))];
    assert Reorder(t) == head + (d + tail);
    DropRowsDistinct(t, Computed);
    DropRowsHas(t, Computed, NetRow);
    DistinctAppend(d, tail);
    forall j | 0 <= j < |d + tail| ensures !HasRow(head, (d + tail)[j].0) {
      if j < |d| {
        DropRowsHas(t, Computed, d[j].0);
        assert HasRow(d, d[j].0);
      }
    }
    DistinctAppend(head, d + tail);
  }

  /** The names kept from the stored flow: stripped, once each. */
  lemma ExpenseRowsNames(stored: Table, k: string)
    ensures DistinctRows(ExpenseRows(stored))
    ensures HasRow(ExpenseRows(stored), k) <==> exists j :: 0 <= j < |stored| && stored[j].0 !in Computed && Trim(stored[j].0) == k
  {
    var d := DropRows(stored, Computed);
    var s := StripNames(d);
    GroupTableRows(s, Horizon, k);
    StripNamesHas(d, k);
    if exists j :: 0 <= j < |d| && Trim(d[j].0) == k {
      var j :| 0 <= j < |d| && Trim(d[j].0) == k;
      DropRowsMembers(stored, Computed, d[j]);
      var m :| 0 <= m < |stored| && stored[m] == d[j];
    }
    if exists j :: 0 <= j < |stored| && stored[j].0 !in Computed && Trim(stored[j].0) == k {
      var j :| 0 <= j < |stored| && stored[j].0 !in Computed && Trim(stored[j].0) == k;
      DropRowsMembers(stored, Computed, stored[j]);
      var m :| 0 <= m < |d| && d[m] == stored[j];
    }
  }

  /** With five-year rows, the kept rows are the grouped sum of the stripped rows. */
  lemma ExpenseRowsGrouped(stored: Table)
    requires HasWidth(stored, Horizon)
    ensures ExpenseRows(stored) == GroupTable(StripNames(DropRows(stored, Computed)), Horizon)
  {
    var s := StripNames(DropRows(stored, Computed));
    DropRowsWidth(stored, Computed, Horizon);
    if DistinctRows(s) {
      GroupTableOfDistinct(s, Horizon);
    }
  }

  /** Each kept expense row holds, year by year, the sum of the stored rows whose names strip to its name. */
  lemma ExpenseRowSums(stored: Table, k: string, i: nat)
    requires HasWidth(stored, Horizon) && i < Horizon
    requires HasRow(ExpenseRows(stored), k)
    ensures Cell(RowValue(ExpenseRows(stored), k), i) == SumFor(Column(StripNames(DropRows(stored, Computed)), i), k)
  {
    var s := StripNames(DropRows(stored, Computed));
    var g := ExpenseRows(stored);
    ExpenseRowsGrouped(stored);
    ExpenseRowsNames(stored, k);
    var j :| 0 <= j < |g| && g[j].0 == k;
    RowValueAt(g, j);
    GroupTableCell(s, Horizon, j, i);
  }

  /** The row values of the frame before reordering, name by name. */
  lemma StageValues(stored: Table, revenue: seq<real>, n: string)
    requires |revenue| >= Horizon
    ensures RowValue(WithNet(stored, revenue), n)
            == if n == NetRow then Remaining(WithResultTax(stored, revenue), revenue, {RevenueRow})
               else if n == ResultTaxRow then Dre.ResultTax(Remaining(WithSalesTax(stored, revenue), revenue, Computed))
               else if n == SalesTaxRow then Dre.SalesTax(revenue)
               else if n == RevenueRow then revenue
               else RowValue(ExpenseRows(stored), n)
  {
    var t1 := ExpenseRows(stored);
    var t2 := SetRow(t1, RevenueRow, revenue);
    var t3 := SetRow(t2, SalesTaxRow, Dre.SalesTax(revenue));
    var t4 := WithResultTax(stored, revenue);
    RowValueSet(t1, RevenueRow, revenue, n);
    RowValueSet(t2, SalesTaxRow, Dre.SalesTax(revenue), n);
    RowValueSet(t3, ResultTaxRow, Dre.ResultTax(Remaining(t3, revenue, Computed)), n);
    RowValueSet(t4, NetRow, Remaining(t4, revenue, {RevenueRow}), n);
  }

  /** The frame's names: the four computed rows and the stripped names of the stored rows, once each; revenue first, net profit last. */
  lemma CashFlowRows(stored: Table, revenue: seq<real>, k: string)
    requires |revenue| == Horizon
    ensures var r := CashFlowTable(stored, revenue);
      && r[0] == (RevenueRow, revenue) && r[|r| - 1].0 == NetRow
      && DistinctRows(r)
      && (HasRow(r, k) <==> k in {RevenueRow, SalesTaxRow, ResultTaxRow, NetRow}
                            || exists j :: 0 <= j < |stored| && stored[j].0 !in Computed && Trim(stored[j].0) == k)
  {
    StageNames(stored, revenue, k);
    ReorderKeeps(WithNet(stored, revenue), k);
  }

  /** The rows present before reordering: the four computed rows plus every trimmed stored expense. */
  lemma StageNames(stored: Table, revenue: seq<real>, k: string)
    requires |revenue| == Horizon
    ensures HasRow(WithNet(stored, revenue), k) <==>
              (k in {RevenueRow, SalesTaxRow, ResultTaxRow, NetRow}
               || exists j :: 0 <= j < |stored| && stored[j].0 !in Computed && Trim(stored[j].0) == k)
  {
    var t1 := ExpenseRows(stored);
    var t2 := SetRow(t1, RevenueRow, revenue);
    var t3 := SetRow(t2, SalesTaxRow, Dre.SalesTax(revenue));
    var t4 := WithResultTax(stored, revenue);
    ExpenseRowsNames(stored, k);
    SetRowHas(t1, RevenueRow, revenue, k);
    SetRowHas(t2, SalesTaxRow, Dre.SalesTax(revenue), k);
    SetRowHas(t3, ResultTaxRow, Dre.ResultTax(Remaining(t3, revenue, Computed)), k);
    SetRowHas(t4, NetRow, Remaining(t4, revenue, {RevenueRow}), k);
  }

  /**
   * Row by row: the revenue row is the projection, the sales-tax row is 4.85%
   * of it (overwriting any expense of that name), and every other expense row
   * is the consolidated stored row.
   */
  lemma CashFlowValues(stored: Table, revenue: seq<real>, k: string)
    requires |revenue| == Horizon
    ensures RowValue(CashFlowTable(stored, revenue), RevenueRow) == revenue
    ensures RowValue(CashFlowTable(stored, revenue), SalesTaxRow) == Dre.SalesTax(revenue)
    ensures k !in {RevenueRow, SalesTaxRow, ResultTaxRow, NetRow} ==>
              RowValue(CashFlowTable(stored, revenue), k) == RowValue(ExpenseRows(stored), k)
  {
    var t5 := WithNet(stored, revenue);
    ReorderKeeps(t5, RevenueRow);
    ReorderKeeps(t5, SalesTaxRow);
    ReorderKeeps(t5, k);
    StageValues(stored, revenue, RevenueRow);
    StageValues(stored, revenue, SalesTaxRow);
    StageValues(stored, revenue, k);
  }

  /**
   * A stored flow as the expense page writes it: names already stripped and no
   * expense named like the result-tax row.
   */
  predicate Tidy(stored: Table)
  {
    forall j :: 0 <= j < |stored| ==> Trim(stored[j].0) == stored[j].0 && stored[j].0 != ResultTaxRow
  }

  /**
   * The frame balances: for a tidy stored flow, the result tax is 15% of the
   * operating profit (revenue less every row between the first and the last
   * but the result tax) when it is positive, and the net profit is that
   * profit less the tax, that is revenue less every row between.
   */
  lemma CashFlowBalance(stored: Table, revenue: seq<real>, i: nat)
    requires |revenue| == Horizon && i < Horizon && Tidy(stored)
    ensures var r := CashFlowTable(stored, revenue);
      var tax := Cell(RowValue(r, ResultTaxRow), i);
      var profit := revenue[i] - (ColumnTotal(r[1..|r| - 1], i) - tax);
      && tax == (if profit > 0.0 then profit * Dre.ResultTaxRate else 0.0)
      && Cell(RowValue(r, NetRow), i) == profit - tax
      && Cell(RowValue(r, NetRow), i) == revenue[i] - ColumnTotal(r[1..|r| - 1], i)
  {
    var t1 := ExpenseRows(stored);
    var t2 := SetRow(t1, RevenueRow, revenue);
    var t3 := WithSalesTax(stored, revenue);
    var tax := Dre.ResultTax(Remaining(t3, revenue, Computed));
    var t4 := WithResultTax(stored, revenue);
    var net := Remaining(t4, revenue, {RevenueRow});
    var t5 := WithNet(stored, revenue);
    var r := CashFlowTable(stored, revenue);
    ExpenseRowsNames(stored, NetRow);
    ExpenseRowsNames(stored, ResultTaxRow);
    SetRowHas(t1, RevenueRow, revenue, NetRow);
    SetRowHas(t1, RevenueRow, revenue, ResultTaxRow);
    SetRowHas(t2, SalesTaxRow, Dre.SalesTax(revenue), NetRow);
    SetRowHas(t2, SalesTaxRow, Dre.SalesTax(revenue), ResultTaxRow);
    SetRowHas(t3, ResultTaxRow, tax, NetRow);
    DropSetRowNew(t3, ResultTaxRow, tax, Computed);
    DropRowsIgnoresAbsent(t4, {RevenueRow}, NetRow);
    assert {RevenueRow} + {NetRow} == Computed;
    DropSetRowListed(t4, NetRow, net, Computed);
    ColumnTotalSnoc(DropRows(t3, Computed), (ResultTaxRow, tax), i);
    ReorderKeeps(t5, ResultTaxRow);
    ReorderKeeps(t5, NetRow);
    StageValues(stored, revenue, ResultTaxRow);
    StageValues(stored, revenue, NetRow);
  }

  /** The flow the expense page stores is tidy unless an expense is named like the result-tax row. */
  lemma StoredFlowIsTidy(es: seq<Expense>, inflation: seq<real>)
    requires |inflation| >= Horizon
    requires forall j :: 0 <= j < |es| ==> Trim(es[j].name) != ResultTaxRow
    ensures Tidy(Projection(es, inflation)) && HasWidth(Projection(es, inflation), Horizon)
  {
    var p := Projection(es, inflation);
    forall j | 0 <= j < |p| ensures Trim(p[j].0) == p[j].0 && p[j].0 != ResultTaxRow {
      ProjectionRows(es, inflation, p[j].0);
      var m :| 0 <= m < |es| && Trim(es[m].name) == p[j].0;
      TrimIdempotent(es[m].name);
    }
  }

  // ---------------------------------------------------------------------------
  // The page's income statement

  /** Each statement line and the expense category it totals, in the page's order. */
  const StatementCategories: seq<(string, string)> := [
    ("Impostos Sobre Venda", "Impostos"),
    ("Despesas Operacionais", "Operacional"),
    ("Despesas Administrativas", "Administrativa"),
    ("Despesas RH", "RH"),
    ("Despesas Extra Operacional", "Extra Operacional"),
    ("Dividendos", "Dividendos")
  ]

  /** The base-year total of the expenses whose category, stripped, is `category`. */
  function StrippedCategoryTotal(es: seq<Expense>, category: string): real
  {
    if es == [] then 0.0
    else StrippedCategoryTotal(es[..|es| - 1], category)
         + (if Trim(es[|es| - 1].category) == category then es[|es| - 1].amount else 0.0)
  }

  /** A statement line: the category's total carried through the horizon, with no scenario adjustment. */
  function CategoryLine(es: seq<Expense>, category: string, inflation: seq<real>): (line: seq<real>)
    requires |inflation| >= Horizon
    ensures |line| == Horizon
  {
    Projected(StrippedCategoryTotal(es, category), inflation)
  }

  lemma StatementNamesDistinct()
    ensures forall a, b :: 0 <= a < b < |StatementCategories| ==> StatementCategories[a].0 != StatementCategories[b].0
  {
  }

  /** The loop over `categorias_dre`: filter the expenses by stripped category, sum, and carry the sum year by year. */
  method CategoryLines(es: seq<Expense>, inflation: seq<real>) returns (lines: map<string, seq<real>>)
    requires |inflation| >= Horizon
    ensures forall k :: 0 <= k < |StatementCategories| ==>
              StatementCategories[k].0 in lines && lines[StatementCategories[k].0] == CategoryLine(es, StatementCategories[k].1, inflation)
  {
    StatementNamesDistinct();
    lines := map[];
    for k := 0 to |StatementCategories|
      invariant forall m :: 0 <= m < k ==>
                  StatementCategories[m].0 in lines && lines[StatementCategories[m].0] == CategoryLine(es, StatementCategories[m].1, inflation)
    {
      var (name, category) := StatementCategories[k];
      var total := 0.0;
      for j := 0 to |es|
        invariant total == StrippedCategoryTotal(es[..j], category)
      {
        assert es[..j + 1][..j] == es[..j];
        if Trim(es[j].category) == category {
          total := total + es[j].amount;
        }
      }
      assert es[..|es|] == es;
      var line := CarryForward(total, inflation);
      lines := lines[name := line];
    }
  }

  /**
   * The statement the page shows: revenue from the frame, sales tax recomputed
   * as 4.85% of it (the line taken from the "Impostos" category is
   * overwritten), four expense lines and the dividends, and no extra revenue.
   */
  function PageStatement(es: seq<Expense>, inflation: seq<real>, revenue: seq<real>): (s: Dre.Statement)
    requires |inflation| >= Horizon && |revenue| == Horizon
    ensures Dre.Balanced(s) && s.revenue == revenue
    ensures forall i :: 0 <= i < Horizon ==> s.extraRevenue[i] == 0.0
  {
    Dre.Close(revenue, Dre.SalesTax(revenue),
      CategoryLine(es, "Operacional", inflation), CategoryLine(es, "Administrativa", inflation),
      CategoryLine(es, "RH", inflation), CategoryLine(es, "Extra Operacional", inflation),
      CategoryLine(es, "Dividendos", inflation), Zeros, None)
  }

  /** The page's statement section: the category loop, then the subtotals. */
  method StatementSection(es: seq<Expense>, inflation: seq<real>, revenue: seq<real>) returns (s: Dre.Statement)
    requires |inflation| >= Horizon && |revenue| == Horizon
    ensures s == PageStatement(es, inflation, revenue)
  {
    var lines := CategoryLines(es, inflation);
    assert StatementCategories[1] == ("Despesas Operacionais", "Operacional");
    assert StatementCategories[2] == ("Despesas Administrativas", "Administrativa");
    assert StatementCategories[3] == ("Despesas RH", "RH");
    assert StatementCategories[4] == ("Despesas Extra Operacional", "Extra Operacional");
    assert StatementCategories[5] == ("Dividendos", "Dividendos");
    s := Dre.Close(revenue, Dre.SalesTax(revenue),
      lines["Despesas Operacionais"], lines["Despesas Administrativas"], lines["Despesas RH"],
      lines["Despesas Extra Operacional"], lines["Dividendos"], Zeros, None);
  }

  /**
   * The page's subtotals: sales tax is 4.85% of revenue, the operating profit is
   * revenue less sales tax and the four expense lines, the result tax is 15% of
   * a positive operating profit, and the net profit is the operating profit less
   * the result tax and the dividends.
   */
  lemma PageStatementChain(es: seq<Expense>, inflation: seq<real>, revenue: seq<real>, i: nat)
    requires |inflation| >= Horizon && |revenue| == Horizon && i < Horizon
    ensures var s := PageStatement(es, inflation, revenue);
      && s.salesTax[i] == revenue[i] * Dre.SalesTaxRate
      && s.operatingProfit[i] == revenue[i] - s.salesTax[i] - s.operational[i] - s.administrative[i] - s.hr[i] - s.extraOperational[i]
      && s.resultTax[i] == (if s.operatingProfit[i] > 0.0 then s.operatingProfit[i] * Dre.ResultTaxRate else 0.0)
      && s.netProfit[i] == s.operatingProfit[i] - s.resultTax[i] - s.dividends[i]
  {
    var s := PageStatement(es, inflation, revenue);
    Dre.SubtotalChain(s, revenue, Dre.SalesTax(revenue),
      CategoryLine(es, "Operacional", inflation), CategoryLine(es, "Administrativa", inflation),
      CategoryLine(es, "RH", inflation), CategoryLine(es, "Extra Operacional", inflation),
      CategoryLine(es, "Dividendos", inflation), Zeros, None, i);
  }

  /** Expenses filed under "Impostos" never reach the statement: its sales-tax line is recomputed from revenue. */
  lemma TaxCategoryIgnored(es: seq<Expense>, e: Expense, inflation: seq<real>, revenue: seq<real>)
    requires |inflation| >= Horizon && |revenue| == Horizon
    requires Trim(e.category) == "Impostos"
    ensures PageStatement(es + [e], inflation, revenue) == PageStatement(es, inflation, revenue)
  {
    assert (es + [e])[..|es|] == es;
  }

  /** The form's categories carry no surrounding blanks. */
  lemma FormCategoriesStripped(c: string)
    requires c in Categories
    ensures Trim(c) == c
  {
    TrimOfSpaceFree(c);
  }

  /** For expenses filed through the form, stripping the category changes no total. */
  lemma {:induction false} StrippedMatchesExact(es: seq<Expense>, category: string)
    requires forall j :: 0 <= j < |es| ==> es[j].category in Categories
    ensures StrippedCategoryTotal(es, category) == Dre.CategoryTotal(es, category)
  {
    if es != [] {
      var n := |es| - 1;
      StrippedMatchesExact(es[..n], category);
      FormCategoriesStripped(es[n].category);
    }
  }

  /** The page's lines are those of the projected scenario of the statement module, for form-filed expenses. */
  lemma PageLinesMatchProjectedScenario(es: seq<Expense>, category: string, inflation: seq<real>, i: nat)
    requires |inflation| >= Horizon && i < Horizon
    requires forall j :: 0 <= j < |es| ==> es[j].category in Categories
    ensures CategoryLine(es, category, inflation)[i] == Dre.ExpenseLine(Dre.CategoryTotal(es, category), inflation, 0.0)[i]
  {
    StrippedMatchesExact(es, category);
    Dre.UnadjustedLine(Dre.CategoryTotal(es, category), inflation, i);
  }

  /**
   * The one line where the page and the statement module part ways: the page's
   * extra-operational line is the "Extra Operacional" expenses carried by
   * inflation, while the projected statement of the statement module takes the
   * loans' installments for that year. With no such expense and a nonzero
   * installment the two differ.
   */
  lemma ExtraOperationalLinesDiffer(es: seq<Expense>, inflation: seq<real>, revenue: seq<real>, years: seq<string>,
                                    loans: seq<Dre.Loan>, extraRevenues: map<string, seq<real>>, i: nat)
    requires |inflation| >= Horizon && |revenue| == Horizon && i < Horizon
    requires Dre.Spans(extraRevenues) && "Extra Operacional" in extraRevenues
    ensures var r := Dre.Dre("Projetado", inflation, years, map["Projetado" := revenue], extraRevenues, es, loans, 0.0, 0.0, None);
      && r.Success? && r.value.extraOperational[i] == Dre.LoanYear(loans, years, 0.0, i)
      && PageStatement(es, inflation, revenue).extraOperational[i] == Inflated(StrippedCategoryTotal(es, "Extra Operacional"), Factor(inflation, i))
      && (StrippedCategoryTotal(es, "Extra Operacional") == 0.0 && Dre.LoanYear(loans, years, 0.0, i) != 0.0 ==>
            PageStatement(es, inflation, revenue).extraOperational[i] != r.value.extraOperational[i])
  {
    var revenues := map["Projetado" := revenue];
    assert Dre.Adjustment("Projetado", 0.0, 0.0) == 0.0;
    var s := Dre.Recomputed(revenue, extraRevenues["Extra Operacional"], inflation, years, es, loans, 0.0);
    assert Dre.Dre("Projetado", inflation, years, revenues, extraRevenues, es, loans, 0.0, 0.0, None) == Success(s);
    assert s.extraOperational == Dre.LoanLine(loans, years, 0.0);
  }

  /** The line order of the statement table. */
  const StatementOrder: seq<string> := [
    "Receita", "Impostos Sobre Venda", "Despesas Operacionais", "Margem de Contribuição",
    "Despesas Administrativas", "Despesas RH", "Resultado Operacional", "Despesas Extra Operacional",
    "Lucro Operacional", "Impostos Sobre Resultado", "Dividendos", "Lucro Líquido"
  ]

  /** `pd.DataFrame(dre).T.loc[ordem_dre]`: the twelve lines in the fixed order. */
  function StatementRows(s: Dre.Statement): (t: Table)
    ensures |t| == |StatementOrder| && forall k :: 0 <= k < |t| ==> t[k].0 == StatementOrder[k]
  {
    [("Receita", s.revenue), ("Impostos Sobre Venda", s.salesTax), ("Despesas Operacionais", s.operational),
     ("Margem de Contribuição", s.margin), ("Despesas Administrativas", s.administrative), ("Despesas RH", s.hr),
     ("Resultado Operacional", s.operatingResult), ("Despesas Extra Operacional", s.extraOperational),
     ("Lucro Operacional", s.operatingProfit), ("Impostos Sobre Resultado", s.resultTax), ("Dividendos", s.dividends),
     ("Lucro Líquido", s.netProfit)]
  }

  /**
   * Row k of the table holds the statement line named StatementOrder[k]:
   * the revenue first and the net profit last; on a balanced statement the
   * last row is the first less the seven expense rows plus the additional
   * revenue, which the table itself does not show.
   */
  lemma StatementRowsLines(s: Dre.Statement, i: nat)
    ensures var t := StatementRows(s);
      && t[0] == ("Receita", s.revenue) && t[1] == ("Impostos Sobre Venda", s.salesTax)
      && t[2] == ("Despesas Operacionais", s.operational) && t[3] == ("Margem de Contribuição", s.margin)
      && t[4] == ("Despesas Administrativas", s.administrative) && t[5] == ("Despesas RH", s.hr)
      && t[6] == ("Resultado Operacional", s.operatingResult) && t[7] == ("Despesas Extra Operacional", s.extraOperational)
      && t[8] == ("Lucro Operacional", s.operatingProfit) && t[9] == ("Impostos Sobre Resultado", s.resultTax)
      && t[10] == ("Dividendos", s.dividends) && t[11] == ("Lucro Líquido", s.netProfit)
    ensures Dre.Balanced(s) && i < Horizon ==>
      var t := StatementRows(s);
      t[11].1[i] == t[0].1[i] - (t[1].1[i] + t[2].1[i] + t[4].1[i] + t[5].1[i] + t[7].1[i] + t[9].1[i] + t[10].1[i])
                    + s.extraRevenue[i]
  {
  }

  /** No line name repeats, so each `.loc` of the table picks one line. */
  lemma StatementRowsDistinct(s: Dre.Statement)
    ensures DistinctRows(StatementRows(s))
  {
  }

  // ---------------------------------------------------------------------------
  // The page end to end

  /** What the page shows: the consolidated frame, the per-crop revenue chart and the income statement. */
  datatype View = View(flow: Table, crops: Table, statement: Dre.Statement)

  /**
   * The page from the session state: the registered plantings, the stored
   * flow, the stored yearly rates and the expense list. It stops with a
   * warning when there is no planting, no stored frame, or no area or no
   * harvest to average over.
   */
  function CashFlowPage(entries: seq<(string, Planting)>, flow: Slot<Table>, storedRates: map<string, real>,
                        es: seq<Expense>): (r: Result<View, Stop>)
    ensures entries == [] ==> r == Failure(NoPlantings)
    ensures entries != [] && !flow.Holds? ==> r == Failure(NoExpenseFlow)
    ensures r.Failure? <==> entries == [] || !flow.Holds?
                            || TotalHectares(Records(entries)) == 0.0 || TotalSacks(Records(entries)) == 0.0
  {
    var ps := Records(entries);
    var inflation := InflationRates(storedRates);
    match Guard(ps, flow)
    case Some(stop) => Failure(stop)
    case None =>
      if TotalHectares(ps) == 0.0 || TotalSacks(ps) == 0.0 then Failure(IncompletePlantings)
      else
        var revenue := Projected(TotalValue(ps), inflation);
        var frame := CashFlowTable(flow.value, revenue);
        CashFlowValues(flow.value, revenue, RevenueRow);
        Success(View(frame, CropRevenues(entries, inflation), PageStatement(es, inflation, RowValue(frame, RevenueRow))))
  }

  /** The page's script, step by step: guards, totals, projections, the frame's row assignments, the statement. */
  method RunCashFlowPage(entries: seq<(string, Planting)>, flow: Slot<Table>, storedRates: map<string, real>,
                         es: seq<Expense>) returns (r: Result<View, Stop>)
    requires DistinctKeys(entries)
    ensures r == CashFlowPage(entries, flow, storedRates, es)
  {
    var ps := Records(entries);
    if ps == [] {
      return Failure(NoPlantings);
    }
    if !flow.Holds? {
      return Failure(NoExpenseFlow);
    }
    var inflation := InflationRates(storedRates);
    var hectares, sacks, value := AccumulateTotals(ps);
    if hectares == 0.0 || sacks == 0.0 {
      return Failure(IncompletePlantings);
    }
    var revenue := ProjectRevenue(hectares, sacks, value, inflation);
    var perPlanting := PlantingRevenues(entries, inflation);
    var crops := GroupTable(ByCrop(perPlanting, entries), Horizon);
    var frame := ExpenseRows(flow.value);
    frame := SetRow(frame, RevenueRow, revenue);
    frame := SetRow(frame, SalesTaxRow, Dre.SalesTax(revenue));
    var operatingProfit := Remaining(frame, revenue, Computed);
    frame := SetRow(frame, ResultTaxRow, Dre.ResultTax(operatingProfit));
    frame := SetRow(frame, NetRow, Remaining(frame, revenue, {RevenueRow}));
    frame := Reorder(frame);
    CashFlowValues(flow.value, revenue, RevenueRow);
    var statement := StatementSection(es, inflation, RowValue(frame, RevenueRow));
    r := Success(View(frame, crops, statement));
  }

  /**
   * On a page that renders, the three views agree year by year: the crop chart
   * adds up to the frame's revenue row, which is the statement's revenue, which
   * is the harvest's base-year value carried by the year's cumulative factor.
   */
  lemma PageConsistent(entries: seq<(string, Planting)>, flow: Slot<Table>, storedRates: map<string, real>,
                       es: seq<Expense>, i: nat)
    requires i < Horizon && CashFlowPage(entries, flow, storedRates, es).Success?
    ensures var v := CashFlowPage(entries, flow, storedRates, es).value;
      var inflation := InflationRates(storedRates);
      && ColumnTotal(v.crops, i) == Cell(RowValue(v.flow, RevenueRow), i)
      && Cell(RowValue(v.flow, RevenueRow), i) == Cell(v.statement.revenue, i)
      && Cell(v.statement.revenue, i) == Inflated(TotalValue(Records(entries)), Factor(inflation, i))
  {
    var inflation := InflationRates(storedRates);
    var revenue := Projected(TotalValue(Records(entries)), inflation);
    CashFlowValues(flow.value, revenue, RevenueRow);
    CropTotals(entries, inflation, i);
  }
}
