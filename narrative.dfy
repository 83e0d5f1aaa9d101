/**
 * The report generator's classifications: the consolidated opinion of a
 * scenario, the opinion and status of a crop, the comparison of the
 * scenarios' total profits and the cash-flow slide built from a statement.
 * Each text branch is represented by the verdict it selects.
 */
module Narrative {
  import opened Common
  import opened Ledger
  import Dre
  import Indicators

  // ---------------------------------------------------------------------------
  // Verdicts

  /** The three tones of the report: a red warning, an amber caution and a green approval. */
  datatype Verdict = Poor | Fair | Good

  /** Net margin: below 10 is low, below 20 moderate, otherwise excellent. */
  function MarginVerdict(margin: real): (v: Verdict)
    ensures v == Poor <==> margin < 10.0
    ensures v == Good <==> margin >= 20.0
  {
    if margin < 10.0 then Poor else if margin < 20.0 then Fair else Good
  }

  /** Profit growth: negative is declining, below 5 slow, otherwise healthy. */
  function GrowthVerdict(cagr: real): (v: Verdict)
    ensures v == Poor <==> cagr < 0.0
    ensures v == Good <==> cagr >= 5.0
  {
    if cagr < 0.0 then Poor else if cagr < 5.0 then Fair else Good
  }

  /** Both three-tier verdicts are monotone: a larger figure never gets a worse verdict. */
  lemma TiersMonotone(x: real, y: real)
    requires x <= y
    ensures MarginVerdict(x) == Good ==> MarginVerdict(y) == Good
    ensures MarginVerdict(y) == Poor ==> MarginVerdict(x) == Poor
    ensures GrowthVerdict(x) == Good ==> GrowthVerdict(y) == Good
    ensures GrowthVerdict(y) == Poor ==> GrowthVerdict(x) == Poor
  {
  }

  // ---------------------------------------------------------------------------
  // The consolidated opinion of a scenario

  /** The means the consolidated opinion reads, DSCR averaged over its finite entries. */
  datatype Averages = Averages(
    margin: real,
    returnPerReal: real,
    liquidity: real,
    indebtedness: real,
    productivity: real,
    costToRevenue: real,
    dscr: Ratio,
    breakEven: real,
    roa: real,
    profitCagr: real)

  /** The block of means at the top of the consolidated opinion. */
  function AveragesOf(ind: Indicators.Indicators): (a: Averages)
    requires Indicators.Averageable(ind)
    ensures a.margin * (|ind.netMargin| as real) == Sum(ind.netMargin)
    ensures a.dscr == Infinite <==> forall i :: 0 <= i < |ind.dscr| ==> ind.dscr[i] == Infinite
    ensures a.profitCagr == ind.profitCagr
  {
    Averages(Mean(ind.netMargin), Mean(ind.returnPerReal), Mean(ind.liquidity), Mean(ind.indebtedness),
             Mean(ind.productivity), Mean(ind.costToRevenue), Indicators.DscrMean(ind.dscr),
             Mean(ind.breakEven), Mean(ind.roa), ind.profitCagr)
  }

  /**
   * Every mean of the block is `np.mean` of its list: times the list's
   * length it gives the list's sum.
   */
  lemma AveragesAreMeans(ind: Indicators.Indicators)
    requires Indicators.Averageable(ind)
    ensures var a := AveragesOf(ind);
      && a.margin * (|ind.netMargin| as real) == Sum(ind.netMargin)
      && a.returnPerReal * (|ind.returnPerReal| as real) == Sum(ind.returnPerReal)
      && a.liquidity * (|ind.liquidity| as real) == Sum(ind.liquidity)
      && a.indebtedness * (|ind.indebtedness| as real) == Sum(ind.indebtedness)
      && a.productivity * (|ind.productivity| as real) == Sum(ind.productivity)
      && a.costToRevenue * (|ind.costToRevenue| as real) == Sum(ind.costToRevenue)
      && a.breakEven * (|ind.breakEven| as real) == Sum(ind.breakEven)
      && a.roa * (|ind.roa| as real) == Sum(ind.roa)
  {
    var a := AveragesOf(ind);
    IsMean(a.returnPerReal, ind.returnPerReal);
    IsMean(a.liquidity, ind.liquidity);
    IsMean(a.indebtedness, ind.indebtedness);
    IsMean(a.productivity, ind.productivity);
    IsMean(a.costToRevenue, ind.costToRevenue);
    IsMean(a.breakEven, ind.breakEven);
    IsMean(a.roa, ind.roa);
  }

  lemma IsMean(m: real, xs: seq<real>)
    requires |xs| > 0 && m == Mean(xs)
    ensures m * (|xs| as real) == Sum(xs)
  {
  }

  /**
   * The verdict of each topic. Productivity and break-even have no warning
   * branch: above 5000 per hectare productivity is good and otherwise "can
   * improve"; a break-even above 50 sacks per hectare is a high risk and
   * otherwise a moderate one.
   */
  function SlideVerdict(t: Indicators.Topic, a: Averages): (v: Verdict)
    ensures t == Indicators.Productivity ==> v != Poor
    ensures t == Indicators.BreakEvenYield ==> v != Good
    ensures t !in {Indicators.Margin, Indicators.Productivity, Indicators.BreakEvenYield, Indicators.ProfitGrowth} ==> v != Fair
  {
    match t
    case Margin => MarginVerdict(a.margin)
    case Return => if a.returnPerReal < 0.2 then Poor else Good
    case Liquidity => if a.liquidity < 1.5 then Poor else Good
    case Debt => if a.indebtedness > 30.0 then Poor else Good
    case Productivity => if a.productivity > 5000.0 then Good else Fair
    case Cost => if a.costToRevenue > 70.0 then Poor else Good
    case Dscr => if a.dscr != Infinite && a.dscr.value < 1.25 then Poor else Good
    case BreakEvenYield => if a.breakEven > 50.0 then Poor else Fair
    case Roa => if a.roa < 5.0 then Poor else Good
    case ProfitGrowth => GrowthVerdict(a.profitCagr)
  }

  /**
   * `gerar_parecer_consolidado_detalhado` on the block of means: one verdict
   * per topic, appended in the page's order.
   */
  method ConsolidatedOpinion(a: Averages) returns (items: seq<(Indicators.Topic, Verdict)>)
    ensures |items| == |Indicators.TopicOrder|
    ensures forall k :: 0 <= k < |items| ==> items[k] == (Indicators.TopicOrder[k], SlideVerdict(Indicators.TopicOrder[k], a))
  {
    items := [];
    items := items + [(Indicators.Margin, SlideVerdict(Indicators.Margin, a))];
    items := items + [(Indicators.Return, SlideVerdict(Indicators.Return, a))];
    items := items + [(Indicators.Liquidity, SlideVerdict(Indicators.Liquidity, a))];
    items := items + [(Indicators.Debt, SlideVerdict(Indicators.Debt, a))];
    items := items + [(Indicators.Productivity, SlideVerdict(Indicators.Productivity, a))];
    items := items + [(Indicators.Cost, SlideVerdict(Indicators.Cost, a))];
    items := items + [(Indicators.Dscr, SlideVerdict(Indicators.Dscr, a))];
    items := items + [(Indicators.BreakEvenYield, SlideVerdict(Indicators.BreakEvenYield, a))];
    items := items + [(Indicators.Roa, SlideVerdict(Indicators.Roa, a))];
    items := items + [(Indicators.ProfitGrowth, SlideVerdict(Indicators.ProfitGrowth, a))];
  }

  /**
   * On eight of the ten topics the report warns exactly when the indicators
   * page warns: the thresholds are the same.
   */
  lemma SlideAgreesWithPage(ind: Indicators.Indicators, b: Indicators.Base, t: Indicators.Topic)
    requires Indicators.Averageable(ind)
    requires t != Indicators.Productivity && t != Indicators.BreakEvenYield
    ensures SlideVerdict(t, AveragesOf(ind)) == Poor <==> Indicators.Alarm(t, ind, b)
  {
  }

  /**
   * On productivity the two disagree: the page compares with 80% of the base
   * year's revenue per hectare, the report with a fixed 5000. A scenario
   * averaging 6000 per hectare on a base of 10000 per hectare is a warning on
   * the page and "good productivity" in the report.
   */
  lemma SlideProductivityDiffers()
    ensures var ind := Indicators.Indicators([0.0], [0.0], [0.0], [0.0], [6000.0], [0.0], [Infinite], [0.0], [0.0], 0.0, 0.0, [0.0]);
      var b := Indicators.Base(1.0, 1.0, 10000.0, 0.0, [], []);
      Indicators.Alarm(Indicators.Productivity, ind, b) && SlideVerdict(Indicators.Productivity, AveragesOf(ind)) == Good
  {
    var ind := Indicators.Indicators([0.0], [0.0], [0.0], [0.0], [6000.0], [0.0], [Infinite], [0.0], [0.0], 0.0, 0.0, [0.0]);
    var b := Indicators.Base(1.0, 1.0, 10000.0, 0.0, [], []);
    assert Mean(ind.productivity) == 6000.0;
    assert Indicators.BaseRevenuePerHectare(b) == 10000.0;
  }

  // ---------------------------------------------------------------------------
  // The opinion and status of a crop

  /** A crop's indicator dict: its yearly lists and its growth rates, each under its page label. */
  datatype CropMetrics = CropMetrics(lists: map<string, seq<real>>, rates: map<string, real>)

  const MarginKey: string := "Margem Líquida (%)"
  const ReturnKey: string := "Retorno por Real Gasto"
  const ProfitCagrKey: string := "CAGR Lucro Líquido (%)"
  const LiquidityKey: string := "Liquidez Operacional"
  const RoaKey: string := "ROA (%)"
  const CostKey: string := "Custo por Receita (%)"

  /** Every list of the dict has an entry (a mean over no entries is not modelled). */
  predicate ListsNonEmpty(m: CropMetrics)
  {
    forall k :: k in m.lists ==> |m.lists[k]| > 0
  }

  /** `np.mean(d.get(key, [0]))`. */
  function MeanOrZero(m: CropMetrics, key: string): (r: real)
    requires ListsNonEmpty(m)
    ensures key !in m.lists ==> r == 0.0
    ensures key in m.lists ==> r * (|m.lists[key]| as real) == Sum(m.lists[key])
  {
    if key in m.lists then Mean(m.lists[key]) else Mean([0.0])
  }

  /** `d.get(key, 0)`. */
  function RateOrZero(m: CropMetrics, key: string): (r: real)
    ensures key in m.rates ==> r == m.rates[key]
    ensures key !in m.rates ==> r == 0.0
  {
    if key in m.rates then m.rates[key] else 0.0
  }

  /** The crop's projected revenue: the sum of its yearly revenues, a missing year counting 0. */
  function YearsRevenue(byYear: map<string, real>, years: seq<string>): (r: real)
    ensures (forall y :: y in byYear ==> byYear[y] >= 0.0) ==> r >= 0.0
    ensures (forall k :: 0 <= k < |years| ==> years[k] !in byYear) ==> r == 0.0
  {
    if years == [] then 0.0
    else YearsRevenue(byYear, years[..|years| - 1]) + (if years[|years| - 1] in byYear then byYear[years[|years| - 1]] else 0.0)
  }

  /** The total over the report's years, 0 for a crop without projected revenues. */
  function CropRevenueTotal(revenues: map<string, map<string, real>>, crop: string, years: seq<string>): (r: real)
    ensures crop !in revenues ==> r == 0.0
    ensures crop in revenues && (forall y :: y in revenues[crop] ==> revenues[crop][y] >= 0.0) ==> r >= 0.0
  {
    if crop in revenues then YearsRevenue(revenues[crop], years) else 0.0
  }

  /** Estimated profit: the margin's share of the revenue, 0 unless the margin is positive. */
  function EstimatedProfit(revenue: real, margin: real): (p: real)
    ensures margin > 0.0 ==> p * 100.0 == revenue * margin
    ensures margin <= 0.0 ==> p == 0.0
  {
    if margin > 0.0 then revenue * (margin / 100.0) else 0.0
  }

  /** With a margin of at most 100% the estimated profit lies between 0 and the revenue. */
  lemma EstimatedProfitBounds(revenue: real, margin: real)
    requires revenue >= 0.0 && margin <= 100.0
    ensures 0.0 <= EstimatedProfit(revenue, margin) <= revenue
  {
    if margin > 0.0 {
      var p := EstimatedProfit(revenue, margin);
      assert p * 100.0 == revenue * margin;
      assert revenue * margin <= revenue * 100.0;
    }
  }

  /** The closing recommendation for a crop. */
  datatype Recommendation = HighlyRecommended | Recommended | NeedsAttention

  function RecommendationOf(margin: real, returnPerReal: real, cagr: real): (r: Recommendation)
    ensures r == HighlyRecommended ==> margin >= 15.0 && returnPerReal >= 0.2 && cagr >= 0.0
    ensures r != NeedsAttention ==> margin >= 10.0 && returnPerReal >= 0.15
  {
    if margin >= 15.0 && returnPerReal >= 0.2 && cagr >= 0.0 then HighlyRecommended
    else if margin >= 10.0 && returnPerReal >= 0.15 then Recommended
    else NeedsAttention
  }

  /** The sections of a crop's opinion. */
  datatype Section =
    | NoData                                          // the crop has no indicators
    | Operations(area: real, revenue: real, profit: real)
    | PerHectare(revenue: real, profit: real)         // yearly averages per hectare
    | Profitability(margin: Verdict)
    | Efficiency(returnPerReal: real, liquidity: real, roa: real, costToRevenue: real)  // the four means, shown as figures
    | Growth(trend: Verdict)
    | Advice(recommendation: Recommendation)

  /** `gerar_parecer_cultura_detalhado` as the list of sections it emits. */
  function CropSections(m: CropMetrics, hectares: real, revenues: map<string, map<string, real>>,
                        crop: string, years: seq<string>): (s: seq<Section>)
    requires ListsNonEmpty(m) && |years| > 0
    ensures s == [NoData] <==> m.lists == map[] && m.rates == map[]
    ensures s != [NoData] ==> 4 <= |s| <= 6 && s[0].Operations? && s[|s| - 1].Advice?
  {
    if m.lists == map[] && m.rates == map[] then [NoData]
    else
      var margin, ret, cagr := MeanOrZero(m, MarginKey), MeanOrZero(m, ReturnKey), RateOrZero(m, ProfitCagrKey);
      var revenue := CropRevenueTotal(revenues, crop, years);
      var profit := EstimatedProfit(revenue, margin);
      var span := hectares * (|years| as real);
      [Operations(hectares, revenue, profit)]
      + (if hectares > 0.0 then [PerHectare(revenue / span, profit / span)] else [])
      + [Profitability(MarginVerdict(margin))]
      + [Efficiency(ret, MeanOrZero(m, LiquidityKey), MeanOrZero(m, RoaKey), MeanOrZero(m, CostKey))]
      + (if cagr != 0.0 then [Growth(GrowthVerdict(cagr))] else [])
      + [Advice(RecommendationOf(margin, ret, cagr))]
  }

  /** The crop opinion, section by section, as the report appends them. */
  method CropOpinion(m: CropMetrics, hectares: real, revenues: map<string, map<string, real>>,
                     crop: string, years: seq<string>) returns (items: seq<Section>)
    requires ListsNonEmpty(m) && |years| > 0
    ensures items == CropSections(m, hectares, revenues, crop, years)
  {
    if m.lists == map[] && m.rates == map[] {
      return [NoData];
    }
    var margin := MeanOrZero(m, MarginKey);
    var ret := MeanOrZero(m, ReturnKey);
    var revenue := CropRevenueTotal(revenues, crop, years);
    var profit := if margin > 0.0 then revenue * (margin / 100.0) else 0.0;
    assert profit == EstimatedProfit(revenue, margin);
    items := [Operations(hectares, revenue, profit)];
    if hectares > 0.0 {
      items := items + [PerHectare(revenue / (hectares * (|years| as real)), profit / (hectares * (|years| as real)))];
    }
    items := items + [Profitability(MarginVerdict(margin))];
    items := items + [Efficiency(ret, MeanOrZero(m, LiquidityKey), MeanOrZero(m, RoaKey), MeanOrZero(m, CostKey))];
    var cagr := RateOrZero(m, ProfitCagrKey);
    if cagr != 0.0 {
      items := items + [Growth(GrowthVerdict(cagr))];
    }
    items := items + [Advice(RecommendationOf(margin, ret, cagr))];
  }

  /**
   * The shape of a crop's opinion: "insufficient data" alone for a crop without
   * indicators; otherwise the operational figures first and the recommendation
   * last, per-hectare figures exactly when the crop has area, the efficiency
   * figures right after the profitability verdict, and a growth section exactly
   * when the profit growth rate is not zero.
   */
  lemma {:induction false} CropSectionsShape(m: CropMetrics, hectares: real, revenues: map<string, map<string, real>>,
                                             crop: string, years: seq<string>)
    requires ListsNonEmpty(m) && |years| > 0
    ensures var s := CropSections(m, hectares, revenues, crop, years);
      && (m.lists == map[] && m.rates == map[] <==> s == [NoData])
      && (s != [NoData] ==> s[0].Operations? && s[|s| - 1].Advice?)
      && (s != [NoData] ==> ((exists k :: 0 <= k < |s| && s[k].PerHectare?) <==> hectares > 0.0))
      && (s != [NoData] ==> ((exists k :: 0 <= k < |s| && s[k].Growth?) <==> RateOrZero(m, ProfitCagrKey) != 0.0))
      && (s != [NoData] ==>
            exists k :: (0 < k < |s| && s[k - 1].Profitability?
                         && s[k] == Efficiency(MeanOrZero(m, ReturnKey), MeanOrZero(m, LiquidityKey),
                                               MeanOrZero(m, RoaKey), MeanOrZero(m, CostKey))))
  {
    var s := CropSections(m, hectares, revenues, crop, years);
    if !(m.lists == map[] && m.rates == map[]) {
      var cagr := RateOrZero(m, ProfitCagrKey);
      var ph := if hectares > 0.0 then 1 else 0;
      var g := if cagr != 0.0 then 1 else 0;
      assert |s| == 4 + ph + g;
      assert s[0].Operations?;
      assert s[1 + ph].Profitability? && s[2 + ph].Efficiency?;
      assert forall k :: 0 <= k < |s| && s[k].PerHectare? ==> k == 1 && hectares > 0.0;
      assert forall k :: 0 <= k < |s| && s[k].Growth? ==> k == 3 + ph && cagr != 0.0;
      if hectares > 0.0 {
        assert s[1].PerHectare?;
      }
      if cagr != 0.0 {
        assert s[3 + ph].Growth?;
      }
    }
  }

  /** The per-hectare figures are the yearly averages: multiplied by area and years they give back the totals. */
  lemma PerHectareFigures(m: CropMetrics, hectares: real, revenues: map<string, map<string, real>>,
                          crop: string, years: seq<string>)
    requires ListsNonEmpty(m) && |years| > 0 && hectares > 0.0
    requires !(m.lists == map[] && m.rates == map[])
    ensures var s := CropSections(m, hectares, revenues, crop, years);
      && s[1].PerHectare?
      && s[1].revenue * (hectares * (|years| as real)) == s[0].revenue
      && s[1].profit * (hectares * (|years| as real)) == s[0].profit
  {
    var s := CropSections(m, hectares, revenues, crop, years);
    var span := hectares * (|years| as real);
    assert span > 0.0;
    assert s[1] == PerHectare(s[0].revenue / span, s[0].profit / span);
    DivideBack(s[0].revenue, span);
    DivideBack(s[0].profit, span);
  }

  lemma DivideBack(x: real, d: real)
    requires d != 0.0
    ensures (x / d) * d == x
  {
  }

  /** The crop status column of the per-crop summary. */
  datatype Mark = Green | Amber | Red

  function Status(margin: real): (k: Mark)
    ensures k == Red <==> MarginVerdict(margin) == Poor
    ensures k == Green ==> MarginVerdict(margin) != Poor && margin >= 15.0
  {
    if margin >= 15.0 then Green else if margin >= 10.0 then Amber else Red
  }

  /**
   * The status and the recommendation of a crop read the same mean margin, so
   * a highly recommended crop is green, a recommended one is not red, and a red
   * crop always needs attention.
   */
  lemma StatusMatchesRecommendation(m: CropMetrics)
    requires ListsNonEmpty(m)
    ensures var margin := MeanOrZero(m, MarginKey);
      var r := RecommendationOf(margin, MeanOrZero(m, ReturnKey), RateOrZero(m, ProfitCagrKey));
      && (r == HighlyRecommended ==> Status(margin) == Green)
      && (r == Recommended ==> Status(margin) != Red)
      && (Status(margin) == Red ==> r == NeedsAttention)
  {
  }

  /** The recommendation tiers, each as the condition that selects it. */
  lemma RecommendationTiers(margin: real, returnPerReal: real, cagr: real)
    ensures RecommendationOf(margin, returnPerReal, cagr) == HighlyRecommended
            <==> margin >= 15.0 && returnPerReal >= 0.2 && cagr >= 0.0
    ensures RecommendationOf(margin, returnPerReal, cagr) == Recommended
            <==> !(margin >= 15.0 && returnPerReal >= 0.2 && cagr >= 0.0) && margin >= 10.0 && returnPerReal >= 0.15
    ensures RecommendationOf(margin, returnPerReal, cagr) == NeedsAttention
            <==> !(margin >= 15.0 && returnPerReal >= 0.2 && cagr >= 0.0) && !(margin >= 10.0 && returnPerReal >= 0.15)
  {
  }

  // ---------------------------------------------------------------------------
  // Comparison of the scenarios' total profits

  const ProjectedScenario: string := "Projetado"
  const PessimisticScenario: string := "Pessimista"
  const OptimisticScenario: string := "Otimista"

  /** The change of a total against the projected one, in percent, as the report writes it: over the projected total itself. */
  function DifferenceAsWritten(total: real, projected: real): (d: real)
    ensures projected == 0.0 ==> d == 0.0
    ensures projected != 0.0 ==> d * projected == (total - projected) * 100.0
  {
    if projected != 0.0 then (total - projected) / projected * 100.0 else 0.0
  }

  /**
   * Over a projected loss the sign turns around: a loss halved from 100 to 50
   * reads as a 50% fall, a loss doubled to 200 as a 100% gain, which raises the
   * "big opportunity" flag.
   */
  lemma DifferenceAsWrittenFlipsOnLoss()
    ensures DifferenceAsWritten(-50.0, -100.0) == -50.0
    ensures DifferenceAsWritten(-200.0, -100.0) == 100.0 && DifferenceAsWritten(-200.0, -100.0) > 15.0
  {
  }

  /** The change against the projected total's magnitude, so its sign is the direction of the change. */
  function Difference(total: real, projected: real): (d: real)
    ensures projected == 0.0 ==> d == 0.0
    ensures projected != 0.0 ==> d * Indicators.Abs(projected) == (total - projected) * 100.0
  {
    if projected != 0.0 then (total - projected) / Indicators.Abs(projected) * 100.0 else 0.0
  }

  /** The corrected change is positive exactly for an improvement, and agrees with the written one over a projected profit. */
  lemma DifferenceSign(total: real, projected: real)
    requires projected != 0.0
    ensures Difference(total, projected) > 0.0 <==> total > projected
    ensures Difference(total, projected) < 0.0 <==> total < projected
    ensures projected > 0.0 ==> Difference(total, projected) == DifferenceAsWritten(total, projected)
  {
    var m := Indicators.Abs(projected);
    var d := Difference(total, projected);
    assert m > 0.0;
    assert d * m == (total - projected) * 100.0;
    if d > 0.0 {
      assert d * m > 0.0;
    } else if d < 0.0 {
      assert d * m < 0.0;
    }
  }

  /** The detailed comparison of the three scenarios' total profits and its two flags. */
  datatype Comparison = Comparison(
    projected: real,
    pessimistic: real,
    optimistic: real,
    pessimisticChange: real,
    optimisticChange: real,
    highRisk: bool,
    bigOpportunity: bool)

  /**
   * The comparison slide: skipped with fewer than two scenarios in the summary
   * table, a missing scenario taking the projected total, and a lookup error
   * when there is no projected scenario.
   */
  function CompareScenarios(rows: nat, netProfits: map<string, seq<real>>): (r: Result<Option<Comparison>, string>)
    ensures rows < 2 ==> r == Success(None)
    ensures r.Failure? <==> rows >= 2 && ProjectedScenario !in netProfits
    ensures r.Success? && r.value.Some? ==>
              (r.value.value.highRisk <==> Indicators.Abs(r.value.value.pessimisticChange) > 20.0)
              && (r.value.value.bigOpportunity <==> r.value.value.optimisticChange > 15.0)
  {
    if rows < 2 then Success(None)
    else if ProjectedScenario !in netProfits then Failure(ProjectedScenario)
    else
      var projected := Sum(netProfits[ProjectedScenario]);
      var pessimistic := if PessimisticScenario in netProfits then Sum(netProfits[PessimisticScenario]) else projected;
      var optimistic := if OptimisticScenario in netProfits then Sum(netProfits[OptimisticScenario]) else projected;
      var down, up := Difference(pessimistic, projected), Difference(optimistic, projected);
      Success(Some(Comparison(projected, pessimistic, optimistic, down, up, Indicators.Abs(down) > 20.0, up > 15.0)))
  }

  /**
   * What the flags mean: high risk is a pessimistic total more than 20% of the
   * projected magnitude away from it; a big opportunity is an optimistic total
   * more than 15% of that magnitude above it. A scenario that is absent raises
   * neither flag.
   */
  lemma ComparisonFlags(rows: nat, netProfits: map<string, seq<real>>)
    requires CompareScenarios(rows, netProfits).Success? && CompareScenarios(rows, netProfits).value.Some?
    ensures var c := CompareScenarios(rows, netProfits).value.value;
      && (c.projected != 0.0 ==> (c.highRisk <==> Indicators.Abs(c.pessimistic - c.projected) * 5.0 > Indicators.Abs(c.projected)))
      && (c.projected != 0.0 ==> (c.bigOpportunity <==> (c.optimistic - c.projected) * 100.0 > 15.0 * Indicators.Abs(c.projected)))
      && (c.bigOpportunity ==> c.optimistic > c.projected)
      && (PessimisticScenario !in netProfits ==> !c.highRisk)
      && (OptimisticScenario !in netProfits ==> !c.bigOpportunity)
  {
    var c := CompareScenarios(rows, netProfits).value.value;
    if c.projected != 0.0 {
      var m := Indicators.Abs(c.projected);
      assert m > 0.0;
      DifferenceSign(c.optimistic, c.projected);
      RiskBand(c.pessimistic, c.projected);
      OpportunityBand(c.optimistic, c.projected);
    }
  }

  lemma RiskBand(total: real, projected: real)
    requires projected != 0.0
    ensures Indicators.Abs(Difference(total, projected)) > 20.0
            <==> Indicators.Abs(total - projected) * 5.0 > Indicators.Abs(projected)
  {
    var m := Indicators.Abs(projected);
    var d := Difference(total, projected);
    var x := total - projected;
    assert d * m == x * 100.0;
    if d < 0.0 {
      assert Indicators.Abs(d) * m == -(d * m);
    }
    ScaledOrder(Indicators.Abs(d), m, Indicators.Abs(x) * 100.0, 20.0);
  }

  lemma OpportunityBand(total: real, projected: real)
    requires projected != 0.0
    ensures Difference(total, projected) > 15.0 <==> (total - projected) * 100.0 > 15.0 * Indicators.Abs(projected)
  {
    ScaledOrder(Difference(total, projected), Indicators.Abs(projected), (total - projected) * 100.0, 15.0);
  }

  /** A positive scale keeps the order: when a * m == y, a exceeds c exactly when y exceeds c * m. */
  lemma ScaledOrder(a: real, m: real, y: real, c: real)
    requires m > 0.0 && a * m == y
    ensures a > c <==> y > c * m
  {
    if a > c {
      assert (a - c) * m > 0.0;
    } else {
      assert (c - a) * m >= 0.0;
    }
  }

  // ---------------------------------------------------------------------------
  // The cash-flow slide

  /** Every amount with its sign turned, for the outflow lines. */
  function Negated(xs: seq<real>): (ys: seq<real>)
    ensures |ys| == |xs| && forall i :: 0 <= i < |xs| ==> ys[i] + xs[i] == 0.0
  {
    seq(|xs|, i requires 0 <= i < |xs| => -xs[i])
  }

  /** The slide's ten lines: revenue, the operating outflows, EBITDA, the other outflows and the net flow. */
  function CashFlowSlide(s: Dre.Statement, n: nat): (t: Table)
    requires Indicators.Shaped(s, n)
    ensures |t| == 10 && HasWidth(t, n)
    ensures t[9].1 == s.netProfit
  {
    [("Receita Operacional", s.revenue),
     ("(-) Impostos s/ Venda", Negated(s.salesTax)),
     ("(-) Desp. Operacionais", Negated(s.operational)),
     ("(-) Desp. Administrativas", Negated(s.administrative)),
     ("(-) Despesas RH", Negated(s.hr)),
     ("(=) EBITDA", seq(n, i requires 0 <= i < n => s.revenue[i] - s.salesTax[i] - s.operational[i] - s.administrative[i] - s.hr[i])),
     ("(-) Desp. Extra Op.", Negated(s.extraOperational)),
     ("(-) Dividendos", Negated(s.dividends)),
     ("(-) Imp. s/ Resultado", Negated(s.resultTax)),
     ("(=) FLUXO LÍQUIDO", s.netProfit)]
  }

  /** A statement whose subtotals follow the chain of the statement's closing, year by year. */
  predicate Chained(s: Dre.Statement, n: nat)
  {
    && Indicators.Shaped(s, n) && |s.margin| == n && |s.operatingResult| == n && |s.extraRevenue| >= n
    && forall i :: 0 <= i < n ==>
         && s.margin[i] == s.revenue[i] - s.salesTax[i] - s.operational[i]
         && s.operatingResult[i] == s.margin[i] - s.administrative[i] - s.hr[i]
         && s.operatingProfit[i] == s.operatingResult[i] - s.extraOperational[i]
         && s.netProfit[i] == s.operatingProfit[i] - s.resultTax[i] - s.dividends[i] + s.extraRevenue[i]
  }

  /** Every closed statement whose lines span exactly the horizon is chained. */
  lemma ClosedIsChained(revenue: seq<real>, salesTax: seq<real>, operational: seq<real>, administrative: seq<real>,
                        hr: seq<real>, extraOperational: seq<real>, dividends: seq<real>, extraRevenue: seq<real>,
                        givenTax: Option<seq<real>>)
    requires |revenue| == Horizon && |salesTax| == Horizon && |operational| == Horizon && |administrative| == Horizon
    requires |hr| == Horizon && |extraOperational| == Horizon && |dividends| == Horizon && |extraRevenue| == Horizon
    requires givenTax.Some? ==> |givenTax.value| == Horizon
    ensures Chained(Dre.Close(revenue, salesTax, operational, administrative, hr, extraOperational, dividends, extraRevenue, givenTax), Horizon)
  {
    var s := Dre.Close(revenue, salesTax, operational, administrative, hr, extraOperational, dividends, extraRevenue, givenTax);
    forall i | 0 <= i < Horizon
      ensures s.margin[i] == s.revenue[i] - s.salesTax[i] - s.operational[i]
      ensures s.operatingResult[i] == s.margin[i] - s.administrative[i] - s.hr[i]
      ensures s.operatingProfit[i] == s.operatingResult[i] - s.extraOperational[i]
      ensures s.netProfit[i] == s.operatingProfit[i] - s.resultTax[i] - s.dividends[i] + s.extraRevenue[i]
    {
      Dre.SubtotalChain(s, revenue, salesTax, operational, administrative, hr, extraOperational, dividends, extraRevenue, givenTax, i);
    }
  }

  /**
   * On a chained statement EBITDA is the operating result, the first five
   * lines add up to it, and the net flow is EBITDA plus the three outflow lines
   * below it plus the extra revenue, a line the slide does not show: the shown
   * lines add up to the net flow exactly in the years without extra revenue.
   */
  lemma SlideAddsUp(s: Dre.Statement, n: nat, i: nat)
    requires Chained(s, n) && i < n
    ensures var t := CashFlowSlide(s, n);
      && t[5].1[i] == s.operatingResult[i]
      && t[0].1[i] + t[1].1[i] + t[2].1[i] + t[3].1[i] + t[4].1[i] == t[5].1[i]
      && t[9].1[i] == t[5].1[i] + t[6].1[i] + t[7].1[i] + t[8].1[i] + s.extraRevenue[i]
      && (t[9].1[i] == t[5].1[i] + t[6].1[i] + t[7].1[i] + t[8].1[i] <==> s.extraRevenue[i] == 0.0)
  {
  }
}
