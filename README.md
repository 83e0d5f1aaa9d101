# gestor_plantio financial engine, in Dafny

gestor_plantio is a Streamlit application for planning a farm's plantings
over a five-year horizon ("Ano 1" … "Ano 5"). The user registers plantings
(crop, area, sacks per hectare, price per sack) and annual expenses by
category. From these, with a yearly inflation rate, the application
projects:

- the revenue and the expense flow;
- a cash-flow table with two tax rows;
- an income statement (DRE, *Demonstração do Resultado do Exercício*) per
  scenario (Projetado, Pessimista, Otimista), with loan instalments;
- twelve financial indicators with a threshold-based written opinion;
- a PowerPoint report that classifies the same indicators and compares the
  scenarios.

This project models that deterministic engine and proves what each step
promises. The modules are:

| module | models |
|---|---|
| `Common` | The horizon of five years and the cumulative inflation factor `Factor(rates, i)`, the product over j ≤ i of (1 + rates[j]/100). Also Python's `sum`, `np.mean`, `str.strip` and `list.index`, the guarded division every ratio uses, and `Ratio = Finite(r) \| Infinite` for `float("inf")`. |
| `Ledger` | Python dicts filled by `d[k] = d.get(k, 0) + x` and pandas `groupby(...).sum()`, as association lists in first-occurrence order. Frames are lists of named five-year rows. |
| `Frames` | The pandas row operations the cash-flow page uses: `.loc` read and assignment, `drop(errors="ignore")` and stripping the index. |
| `Plantings` | The planting registry, a class over the ordered `plantios` dict (register, save edit, delete, clear all), and the planting totals loop. |
| `Expenses` | The expense page, a class over the session's `despesas` list, the edit index and the stored flow (submit, edit, cancel, delete, clear all), and the grouped inflation projection. |
| `Dre` | `calcular_dre`: the adjusted-flow and recompute paths, the scenario expense shift, the loan loop over an array, and the subtotal chain. |
| `CashFlow` | The cash-flow page: the guards, the revenue projection, the per-planting and per-crop revenue, the consolidated cash-flow frame with its tax and net rows, and the page's own unadjusted statement. |
| `Indicators` | The indicators page: the base data and additional revenues, the twelve indicators, the growth rate, the DSCR mean, the opinion thresholds and the revenue-by-crop summary. |
| `Narrative` | The report generator's classifiers: the consolidated opinion, the per-crop opinion and recommendation, the crop status mark, the scenario comparison and the cash-flow slide. |

Amounts are exact reals. Every `st.stop()`, `raise` or lookup error the
code can reach becomes a `Failure` of a `Result`. The session state the
pages read becomes parameters.

## Model

| member | source | states |
|---|---|---|
| Common.Factor | pages/3_Despesas.py:148-149 | The cumulative product Π(1 + rates[j]/100) over j ≤ i, also used at pages/4_Fluxo_de_Caixa.py:53, 101 and 218 and at utils/dre.py:54. It is 1 when no year up to i has inflation. FactorPrefix, FactorAtLeastOne and FactorPositive carry its other properties. |
| Common.Factors | pages/3_Despesas.py:148-149 | The five yearly factors, each the cumulative product through that year. |
| Common.FactorPrefix | pages/3_Despesas.py:149 | A year's factor depends only on the rates of that year and the earlier ones. |
| Common.FactorAtLeastOne | pages/3_Despesas.py:19-22 | With the form's non-negative rates, the factor is never below 1. |
| Common.FactorPositive | pages/3_Despesas.py:149 | Rates above -100% keep the factor positive. |
| Common.FactorFlatFourPercent | pages/3_Despesas.py:10 | Worked example, one input: at the default 4% a year, the factors are 1.04 and then 1.0816. |
| Common.Mean | pages/5_Indicadores.py:524 | The mean times the count is the sum. |
| Common.SafeDiv | pages/5_Indicadores.py:238 | 0 for a zero divisor; otherwise the quotient times the divisor gives back the dividend. |
| Common.Trim | pages/3_Despesas.py:79 | `str.strip()`: never longer than its input. TrimEnds, TrimIsSlice, TrimAllBlank, TrimOfSpaceFree and TrimIdempotent carry its properties. |
| Common.TrimEnds | pages/3_Despesas.py:79 | A stripped name has no blank at either end. |
| Common.TrimIsSlice | pages/3_Despesas.py:79 | The stripped name is the slice between a run of leading and a run of trailing blanks. |
| Common.TrimAllBlank | pages/3_Despesas.py:79 | A name made only of blanks strips to "". |
| Common.TrimOfSpaceFree | pages/3_Despesas.py:79 | A name with no blank at either end is its own strip. |
| Common.TrimIdempotent | pages/4_Fluxo_de_Caixa.py:121 | Stripping twice is stripping once, so re-stripping stored names changes nothing. |
| Common.IndexOf | utils/dre.py:64-65 | `anos.index`: the first position of the label, and None exactly when the label is absent (where Python raises). |
| Ledger.AddTo | pages/5_Indicadores.py:331-334 | `d[k] = d.get(k, 0) + x`: an existing key keeps its place, a new key goes last, and no other key moves. |
| Ledger.AddToLookup | pages/5_Indicadores.py:331-334 | After the update, k holds x more and every other key holds what it held. |
| Ledger.AddToTotal | pages/5_Indicadores.py:331-334 | The update adds exactly x to the dict's total. |
| Ledger.AddToDistinct | pages/5_Indicadores.py:331-334 | The update keeps the keys distinct. |
| Ledger.AddToNames | pages/5_Indicadores.py:331-332 | The keys after the update are the old keys and k. |
| Ledger.Group | pages/3_Despesas.py:144 | The grouped rows have distinct names. |
| Ledger.GroupNames | pages/3_Despesas.py:144 | A name is a key of the grouping exactly when some row has it. |
| Ledger.GroupLookup | pages/3_Despesas.py:144 | The grouped amount of a name is the sum of the rows with that name. |
| Ledger.GroupConserves | pages/3_Despesas.py:144 | Grouping neither creates nor loses money. |
| Ledger.GroupOfDistinct | pages/4_Fluxo_de_Caixa.py:126-127 | Rows whose names are already distinct group to themselves. |
| Ledger.GroupSumsAddUp | pages/3_Despesas.py:144 | Adding up every key's grouped sum gives the total of all rows. |
| Ledger.GroupTable | pages/4_Fluxo_de_Caixa.py:127 | Grouping a frame gives one five-year row per distinct name, in first-occurrence order. |
| Ledger.GroupTableRows | pages/4_Fluxo_de_Caixa.py:127 | The grouped frame has each input name once, and no other name. |
| Ledger.GroupTableCell | pages/4_Fluxo_de_Caixa.py:127 | Each grouped cell is the sum of that year over the rows with that name. |
| Ledger.GroupTableColumnTotal | pages/4_Fluxo_de_Caixa.py:127 | Grouping keeps every year's column total. |
| Ledger.GroupTableOfDistinct | pages/4_Fluxo_de_Caixa.py:126-127 | A frame with unique names groups to itself, so the `is_unique` shortcut changes nothing. |
| Frames.DropRows | pages/4_Fluxo_de_Caixa.py:29 | `drop(names, errors="ignore")`: never more rows than before. DropRowsHas, DropRowsMembers, DropRowsDistinct and DropRowsIgnoresAbsent carry its properties. |
| Frames.DropRowsHas | pages/4_Fluxo_de_Caixa.py:29 | After `drop`, a name is present exactly when it was present and not listed. |
| Frames.DropRowsMembers | pages/4_Fluxo_de_Caixa.py:29 | The kept rows are exactly the rows whose names are not listed. |
| Frames.DropRowsDistinct | pages/4_Fluxo_de_Caixa.py:29 | Dropping rows keeps names unique. |
| Frames.DropRowsIgnoresAbsent | pages/4_Fluxo_de_Caixa.py:29 | `errors="ignore"`: listing a name no row has changes nothing. |
| Frames.DropSetRowListed | pages/4_Fluxo_de_Caixa.py:136 | Assigning a row and then dropping its name is dropping it. |
| Frames.DropSetRowNew | pages/4_Fluxo_de_Caixa.py:131 | A row assigned under a new, unlisted name ends the dropped frame. |
| Frames.Replace | pages/4_Fluxo_de_Caixa.py:133 | Assigning an existing name overwrites that row's values only. |
| Frames.SetRow | pages/4_Fluxo_de_Caixa.py:131 | Reference function for `.loc[k] = v`: overwrite the row named k, or append it. RowValueSet, SetRowHas and SetRowDistinct carry its properties. |
| Frames.RowValueSet | pages/4_Fluxo_de_Caixa.py:131 | After `.loc[k] = v`, reading k gives v and reading any other name gives the old row. |
| Frames.SetRowHas | pages/4_Fluxo_de_Caixa.py:131 | The assignment adds exactly the name k. |
| Frames.SetRowDistinct | pages/4_Fluxo_de_Caixa.py:131 | The assignment keeps names unique. |
| Frames.StripNames | pages/4_Fluxo_de_Caixa.py:121 | Every row keeps its values and gets its name stripped. |
| Frames.StripNamesHas | pages/4_Fluxo_de_Caixa.py:121 | A stripped name is present exactly when some row strips to it. |
| Frames.StripNamesOfStripped | pages/4_Fluxo_de_Caixa.py:121 | Stripping a frame whose names carry no blanks changes nothing. |
| Plantings.TotalHectares | pages/4_Fluxo_de_Caixa.py:33-40 | Total area, 0 when no planting has area. AccumulateTotals and TotalsNonNegative carry its other properties. |
| Plantings.TotalSacks | pages/4_Fluxo_de_Caixa.py:33-40 | Total sacks (yield × area), 0 when every planting lacks area or yield. |
| Plantings.TotalValue | pages/4_Fluxo_de_Caixa.py:33-40 | Base-year value (price × yield × area), 0 when no planting has area. |
| Plantings.AccumulateTotals | pages/4_Fluxo_de_Caixa.py:33-40 | The loop's three sums are the total area, the total sacks (yield × area) and the base-year value (price × yield × area). |
| Plantings.TotalsNonNegative | pages/1_Cadastro_de_Plantio.py:14-16 | With the form's non-negative inputs, no total is negative. |
| Plantings.RemoveId | pages/1_Cadastro_de_Plantio.py:72 | The ids left after `del` are the others, in their order. |
| Plantings.RemoveIdDistinct | pages/1_Cadastro_de_Plantio.py:72 | Deleting keeps the ids distinct. |
| Plantings.RegisterThenDelete | pages/1_Cadastro_de_Plantio.py:20-28 | Deleting a planting just registered restores the ids as they were. |
| Plantings.PlantingRegistry.Values | pages/4_Fluxo_de_Caixa.py:37 | `plantios.values()`: the records in registration order. |
| Plantings.PlantingRegistry.Entries | pages/4_Fluxo_de_Caixa.py:87 | `plantios.items()`: each id with its record, in registration order. |
| Plantings.PlantingRegistry.Empty | pages/1_Cadastro_de_Plantio.py:8-9 | The registry starts empty. |
| Plantings.PlantingRegistry.Open | pages/1_Cadastro_de_Plantio.py:8-9 | The session's registry is reused when present, and a fresh empty one is created otherwise. |
| Plantings.PlantingRegistry.Register | pages/1_Cadastro_de_Plantio.py:11-28 | A fresh id is added last with the submitted record; every other id keeps its record. |
| Plantings.PlantingRegistry.SaveEdit | pages/1_Cadastro_de_Plantio.py:61-68 | Only that id changes: its year is kept and the other four fields are replaced. |
| Plantings.PlantingRegistry.Delete | pages/1_Cadastro_de_Plantio.py:71-72 | Exactly that id is removed; the others keep their records and order. |
| Plantings.PlantingRegistry.ClearAll | pages/1_Cadastro_de_Plantio.py:79-80 | The registry is empty. |
| Expenses.Submitted | pages/3_Despesas.py:78-82 | The stored record has the trimmed name and the submitted amount and category. |
| Expenses.BlankNameStoredEmpty | pages/3_Despesas.py:75 | The check reads the untrimmed name, so a name of blanks passes and is stored as "". |
| Expenses.RemoveAt | pages/3_Despesas.py:126 | `pop(i)`: entry i is gone and the others keep their order. |
| Expenses.ByName | pages/3_Despesas.py:140 | Each expense as its trimmed name and its amount. |
| Expenses.Compounded | pages/3_Despesas.py:148-150 | Year i is the amount times that year's factor. |
| Expenses.Compound | pages/3_Despesas.py:147-152 | Each grouped name gets its amount carried over the five years. |
| Expenses.CompoundTotal | pages/3_Despesas.py:150 | A year's column totals the grouped amounts times that year's factor. |
| Expenses.Projection | pages/3_Despesas.py:137-152 | The projected flow has five yearly values in every row. |
| Expenses.ProjectionRows | pages/3_Despesas.py:140-145 | One row per distinct trimmed name, and one for every such name. |
| Expenses.ProjectionCell | pages/3_Despesas.py:144-150 | A name's year-i value is the sum of its amounts times Factor(i). |
| Expenses.ProjectionTotal | pages/3_Despesas.py:144-150 | Year i of the projection totals all registered amounts times Factor(i). |
| Expenses.ExpenseSession.constructor | pages/3_Despesas.py:31-34 | The page starts with no expenses, no edit index and no stored flow. |
| Expenses.ExpenseSession.StartEdit | pages/3_Despesas.py:120-121 | "Editar" sets the edit index to i and nothing else. |
| Expenses.ExpenseSession.Submit | pages/3_Despesas.py:74-90 | A rejected submission changes nothing. Otherwise it replaces the edited entry and leaves edit mode, or appends the record. |
| Expenses.ExpenseSession.CancelEdit | pages/3_Despesas.py:93-94 | Only the edit index is cleared. |
| Expenses.ExpenseSession.Delete | pages/3_Despesas.py:125-126 | Entry i is removed and the rest keep their order. The edit index follows the entry it pointed to (corrected behaviour, Finding 2). |
| Expenses.ExpenseSession.DeleteAsWritten | pages/3_Despesas.py:125-126 | As written: entry i is popped and the edit index and flow are kept. The session stays valid exactly when no edit is open or the edited entry was not the last one (Finding 2). |
| Expenses.ExpenseSession.RefreshFlow | pages/3_Despesas.py:133-162 | With expenses, the stored flow becomes their projection. With none, it is left as it was. |
| Expenses.ExpenseSession.ClearAll | pages/3_Despesas.py:166-169 | No expenses, the flow set to None, and edit mode left. |
| Expenses.DeleteFollowsEdit | pages/3_Despesas.py:125-126 | The index is cleared when its entry goes, moved down one when past it, and kept otherwise. |
| Expenses.DeleteAsWrittenLeavesStaleIndex | pages/3_Despesas.py:126 | As written, for every list, edit index j and deleted entry i, the kept index stays in range exactly when j + 1 < n, so editing the last entry and deleting any entry leaves it past the end (for instance n = 2, j = 1, i = 0). The corrected index is in range in every case (Finding 2). |
| Expenses.DeleteAsWrittenRetargetsEdit | pages/3_Despesas.py:126 | As written, for every i ≤ j with j + 1 < n and distinct neighbours, the kept index j now names the former entry j + 1, another expense. The corrected index moves to j − 1 for i < j and is cleared for i = j (Finding 2). |
| Dre.SalesTax | utils/dre.py:49 | Every year's sales tax is 0.0485 × that year's revenue. |
| Dre.ResultTax | utils/dre.py:92-94 | 15% of a positive operating profit, otherwise 0. |
| Dre.ResultTaxBounds | utils/dre.py:92-94 | Result tax is never negative, is below a positive profit, and is 0 on a loss. |
| Dre.CategoryTotal | utils/dre.py:52 | Reference function for the sum of the amounts filed under exactly that category. CategoryTotalEmpty and CategoryTotalAppend carry its properties. |
| Dre.CategoryTotalEmpty | utils/dre.py:52 | A category with no expense totals 0. |
| Dre.CategoryTotalAppend | utils/dre.py:52 | A new expense raises only its own category's total, by its amount. |
| Dre.ExpenseLine | utils/dre.py:51-54 | Year i is total × Factor(i) × (1 + adjustment/100). |
| Dre.UnadjustedLine | utils/dre.py:54 | With no adjustment, a line is the total carried by the factors alone. |
| Dre.ScenarioShift | utils/dre.py:53 | The pessimistic line is the projected one raised by the pessimistic percentage. The optimistic line is lowered by the optimistic percentage. Any other scenario name gets the projected line. |
| Dre.EmptyCategoryZeros | utils/dre.py:52-54 | A category with no expenses gives zeros in every scenario. |
| Dre.PaidCount | utils/dre.py:68-71 | The instalments paid are min(parcelas, end − start + 1, 5 − start), and none when there is nothing to pay. |
| Dre.LoanYear | utils/dre.py:61-74 | Reference function for year i of the loan loop: the sum of every loan's instalment in that year. LoanSchedule, LoanOutsideYears and InstallmentsCount carry its properties. |
| Dre.LoanLine | utils/dre.py:61-74 | Year i of the extra-operational line is the sum of the loans' instalments in year i. |
| Dre.PayInstallments | utils/dre.py:66-71 | One loan adds its adjusted instalment to exactly the PaidCount years from its start; all other years are unchanged. |
| Dre.LoanSchedule | utils/dre.py:61-74 | The loop's line is, year by year, the sum of every loan's instalment. |
| Dre.LoanOutsideYears | utils/dre.py:63-65 | A loan whose first or last label is not among the years adds nothing. |
| Dre.InstallmentsCount | utils/dre.py:68-71 | Up to year n, a loan has paid its instalment once per window year before n. |
| Dre.LoanTotalOverHorizon | utils/dre.py:61-74 | Over the horizon a loan pays at most its number of instalments, inside the horizon, and nothing when its labels are missing. |
| Dre.LoanExample | utils/dre.py:61-74 | Worked example, one input: three instalments of 1000 from "Ano 2" are paid in years 2–4, raised 10% when pessimistic. |
| Dre.Close | utils/dre.py:77-97 | The given lines are kept. The tax is the given one or 15% of a positive operating profit. The subtotals span the horizon. |
| Dre.CalculateDre | utils/dre.py:5-98 | The loan loop and the assembly give the statement or the error of the call. |
| Dre.Dre | utils/dre.py:5-98 | Succeeds exactly when the adjusted flow, if given, has every line, and the scenario and "Extra Operacional" revenues exist. The statement carries that scenario's revenue and extra revenue, and each year net profit = revenue − the seven expense lines + extra revenue. |
| Dre.DreFailures | utils/dre.py:18-19 | An incomplete adjusted flow fails. Otherwise the call fails exactly when the scenario has no revenue or the extra revenues lack their entry. |
| Dre.AdjustedLinesCopied | utils/dre.py:21-43 | On the adjusted path the seven lines are the flow's own, copied as they are, and revenue is `receitas[cenario]`. |
| Dre.RecomputedLines | utils/dre.py:48-75 | On the recompute path: revenue as given, and sales tax at 4.85%. Each category line is its total times the factor and the scenario shift. The extra-operational line is the loan schedule, and the result tax comes from operating profit. |
| Dre.SubtotalChain | utils/dre.py:78-97 | Margin, operating result, operating profit and net profit follow the chain year by year. |
| Dre.NetProfitIdentity | utils/dre.py:95-97 | Net profit is revenue less the seven expense and tax lines plus the extra revenue. |
| Dre.ResultTaxNonNegative | utils/dre.py:88-94 | A computed result tax is never negative, and it is 15% of a positive operating profit. |
| CashFlow.GuardAsWritten | pages/4_Fluxo_de_Caixa.py:12-18 | The page goes on exactly when a planting exists and the flow key exists, whatever it holds. |
| CashFlow.Guard | pages/4_Fluxo_de_Caixa.py:12-18 | The page goes on exactly when a planting exists and the flow holds a frame (corrected, Finding 3). |
| CashFlow.ClearedFlowPassesGuard | pages/4_Fluxo_de_Caixa.py:16-18 | After "clear all" stores None, the written guard lets the page through and the corrected one stops it. |
| CashFlow.GuardsAgreeOnStoredFlows | pages/4_Fluxo_de_Caixa.py:16-18 | The two guards differ only on a cleared flow. |
| CashFlow.InflationRates | pages/4_Fluxo_de_Caixa.py:22-25 | Each year's rate is the stored `inf_i`, or 4.0 when none is stored. |
| CashFlow.DefaultInflationFactors | pages/4_Fluxo_de_Caixa.py:23 | Worked example, one input: with nothing stored every rate is 4% and the second factor is 1.0816. |
| CashFlow.AverageRouteCollapses | pages/4_Fluxo_de_Caixa.py:46-48 | Area × mean yield × mean price equals the summed value of the harvest. |
| CashFlow.Projected | pages/4_Fluxo_de_Caixa.py:51-54 | Year i is the base value carried by Factor(i). |
| CashFlow.ProjectRevenue | pages/4_Fluxo_de_Caixa.py:42-54 | Behind the guard, the projection loop gives Σ h·s·p × Factor(i) each year. |
| CashFlow.PlantingLine | pages/4_Fluxo_de_Caixa.py:93-103 | Each planting's revenue spans five years. |
| CashFlow.PlantingLineValue | pages/4_Fluxo_de_Caixa.py:93-102 | The zero shortcut changes no value: year i is h·s·p × Factor(i). |
| CashFlow.PlantingTable | pages/4_Fluxo_de_Caixa.py:84-103 | One five-year row per planting id, holding that planting's line. |
| CashFlow.PlantingRevenues | pages/4_Fluxo_de_Caixa.py:86-103 | The loop filling `plantio_receitas_data` builds that table. |
| CashFlow.CarryForward | pages/4_Fluxo_de_Caixa.py:99-102 | The inner append loop gives the base value times each year's factor. |
| CashFlow.ByCrop | pages/4_Fluxo_de_Caixa.py:107-109 | Columns are renamed from planting id to crop, values unchanged. |
| CashFlow.CropRevenues | pages/4_Fluxo_de_Caixa.py:105-113 | One five-year row per crop name, none repeated. |
| CashFlow.CropRevenueRows | pages/4_Fluxo_de_Caixa.py:113 | The crop chart has one row per registered crop and no crop twice. |
| CashFlow.CropRevenueCell | pages/4_Fluxo_de_Caixa.py:113 | A crop's year-i revenue is the summed gross value of its plantings times Factor(i). |
| CashFlow.CropTotals | pages/4_Fluxo_de_Caixa.py:80 | Summed over the crops, each year equals the projected total revenue. |
| CashFlow.Remaining | pages/4_Fluxo_de_Caixa.py:136 | Revenue less, each year, the total of the rows left after the drop. |
| CashFlow.Reorder | pages/4_Fluxo_de_Caixa.py:154-155 | Revenue row first, net row last, and the other rows in their order between. |
| CashFlow.Consolidate | pages/4_Fluxo_de_Caixa.py:126-127 | The result has no repeated row name, and every year's column total is unchanged. |
| CashFlow.ExpenseRows | pages/4_Fluxo_de_Caixa.py:117-127 | The stored expense rows, stripped and consolidated, have no repeated row name. |
| CashFlow.WithSalesTax | pages/4_Fluxo_de_Caixa.py:131-133 | Revenue is the projection and sales tax 4.85% of it. Every other row is the expense row of that name, and no name repeats. |
| CashFlow.WithResultTax | pages/4_Fluxo_de_Caixa.py:136-140 | The result tax is 15% of the positive part of revenue less every other row except the net one. The other rows are kept, and no name repeats. |
| CashFlow.WithNet | pages/4_Fluxo_de_Caixa.py:143 | Net profit is revenue less every other row. The other rows are kept, and no name repeats. |
| CashFlow.CashFlowTable | pages/4_Fluxo_de_Caixa.py:117-155 | Revenue row first, with the projection, and net row last. No row name repeats. |
| CashFlow.ReorderKeeps | pages/4_Fluxo_de_Caixa.py:154-155 | Reordering changes no row's values and adds only the two computed names. |
| CashFlow.ExpenseRowsNames | pages/4_Fluxo_de_Caixa.py:121-127 | The kept names are the stripped names of the stored rows other than revenue and net, each once. |
| CashFlow.ExpenseRowsGrouped | pages/4_Fluxo_de_Caixa.py:121-127 | The kept rows are the grouped sum of the stripped rows. |
| CashFlow.ExpenseRowSums | pages/4_Fluxo_de_Caixa.py:126-127 | Each kept row holds the sum of the stored rows whose names strip to its name. |
| CashFlow.StageValues | pages/4_Fluxo_de_Caixa.py:131-143 | The frame's rows after the four assignments, name by name. |
| CashFlow.CashFlowRows | pages/4_Fluxo_de_Caixa.py:131-155 | The rows are revenue first, net last, unique names, the four computed rows and the stripped stored names. |
| CashFlow.CashFlowValues | pages/4_Fluxo_de_Caixa.py:131-133 | Revenue is the projection and sales tax is 4.85% of it. Every other expense row is the consolidated stored row. |
| CashFlow.CashFlowBalance | pages/4_Fluxo_de_Caixa.py:136-143 | Result tax is 15% of a positive operating profit. Net is that profit less the tax, which is revenue less every middle row. |
| CashFlow.StoredFlowIsTidy | pages/3_Despesas.py:140-162 | The stored flow has stripped names and five years, unless an expense takes the result-tax row's name. |
| CashFlow.CategoryLine | pages/4_Fluxo_de_Caixa.py:216-222 | A statement line spans five years. |
| CashFlow.CategoryLines | pages/4_Fluxo_de_Caixa.py:207-222 | Each statement category's line is its stripped-category total carried by the factors, with no scenario shift. |
| CashFlow.StatementNamesDistinct | pages/4_Fluxo_de_Caixa.py:194-201 | The category mapping has no line name twice. |
| CashFlow.StatementSection | pages/4_Fluxo_de_Caixa.py:204-270 | The category loop and the subtotals build the page's statement. |
| CashFlow.PageStatement | pages/4_Fluxo_de_Caixa.py:204-270 | The statement keeps the revenue. Its extra revenue is zero, and each year net profit = revenue − the seven expense lines. |
| CashFlow.PageStatementChain | pages/4_Fluxo_de_Caixa.py:245-270 | Sales tax at 4.85%, then the subtotal chain and 15% of a positive profit. Net is profit less tax and dividends, with no extra revenue. |
| CashFlow.TaxCategoryIgnored | pages/4_Fluxo_de_Caixa.py:245 | Expenses filed under "Impostos" never reach the statement, because sales tax is recomputed. |
| CashFlow.StrippedCategoryTotal | pages/4_Fluxo_de_Caixa.py:210-212 | Reference function for the sum of the amounts whose stripped category matches. StrippedMatchesExact, CategoryLines and ExtraOperationalLinesDiffer carry its properties. |
| CashFlow.StrippedMatchesExact | pages/4_Fluxo_de_Caixa.py:210-212 | For form-filed expenses, the stripped-category total is the exact-category total. |
| CashFlow.PageLinesMatchProjectedScenario | pages/4_Fluxo_de_Caixa.py:216-221 | For the operational, administrative, HR and dividend lines, and form-filed expenses, a page line equals the unadjusted projected line of `calcular_dre` for that category. The extra-operational line is not among them: see ExtraOperationalLinesDiffer. |
| CashFlow.ExtraOperationalLinesDiffer | pages/4_Fluxo_de_Caixa.py:198-222 | The page's extra-operational line is the "Extra Operacional" expenses × Factor(i). The projected statement of `calcular_dre` (utils/dre.py:61-74) takes the loans' installments for that year instead. With no such expense and a nonzero installment the two lines differ. |
| CashFlow.StatementRows | pages/4_Fluxo_de_Caixa.py:273-289 | The twelve lines in the fixed order. |
| CashFlow.StatementRowsLines | pages/4_Fluxo_de_Caixa.py:273-289 | Row k holds the statement line named StatementOrder[k], from revenue to net profit. On a balanced statement the last row is the first less the seven expense rows plus the additional revenue. |
| CashFlow.StatementRowsDistinct | pages/4_Fluxo_de_Caixa.py:273-289 | No line name repeats. |
| CashFlow.CashFlowPage | pages/4_Fluxo_de_Caixa.py:12-44 | Stops without plantings, without a stored frame, or with zero area or sacks; renders otherwise. (corrected guard, Finding 3) |
| CashFlow.RunCashFlowPage | pages/4_Fluxo_de_Caixa.py:12-289 | The page's loops and assignments give that result. (corrected guard, Finding 3) |
| CashFlow.PageConsistent | pages/4_Fluxo_de_Caixa.py:225 | On a rendered page, the crop chart's year total equals the frame's revenue. That equals the statement's revenue, which equals Σ h·s·p × Factor(i). (corrected guard, Finding 3) |
| Indicators.FirstMissing | pages/5_Indicadores.py:118-122 | None exactly when every required key is present; otherwise the first missing key. |
| Indicators.BaseData | pages/5_Indicadores.py:118-174 | It stops on the first missing key, on no plantings, or on zero area or sacks. Otherwise it gives the three totals, the asset estimate hectares × 20,000 + 1,000,000 (at least 1,000,000 for non-negative area), and the two additional-revenue lines of ExtraLines. (corrected factor, Finding 1) |
| Indicators.GetBaseFinancialData | pages/5_Indicadores.py:112-193 | The page's loops give that result. (corrected factor, Finding 1) |
| Indicators.ExtraLines | pages/5_Indicadores.py:157-174 | The two additional-revenue lines have one value per year label. Without stored additional revenues both are all zeros. Otherwise year i holds OperationalExtra and NonOperationalExtra of that year. (corrected factor, Finding 1) |
| Indicators.OperationalExtra | pages/5_Indicadores.py:164-174 | Year i of the operational line is 0 when no revenue is operational (corrected factor, Finding 1). ProjectExtraRevenues and SingleApplication carry its values. |
| Indicators.NonOperationalExtra | pages/5_Indicadores.py:164-174 | Year i of the extra-operational line is 0 when every revenue is operational. ProjectExtraRevenues and SingleApplication carry its values. |
| Indicators.ProjectExtraRevenues | pages/5_Indicadores.py:157-174 | The nested `+=` loop. Each year's operational entry sums the inflated shares and the other entry the face values. (corrected factor, Finding 1) |
| Indicators.ApplyRevenue | pages/5_Indicadores.py:162-174 | One revenue adds its share once per application label found. (corrected factor, Finding 1) |
| Indicators.UnlistedYearIgnored | pages/5_Indicadores.py:172-174 | An application year not among the labels adds nothing. |
| Indicators.SingleApplication | pages/5_Indicadores.py:164-171 | An operational revenue applied in year i adds its value × Factor(i) there and nothing elsewhere. An extra-operational one adds its face value. (corrected factor, Finding 1) |
| Indicators.AsWrittenExtraFactor | pages/5_Indicadores.py:167 | The factor as written, 1 + rate with no division by 100. It is 1 when every rate is 0; the converse, for the form's non-negative rates, is AsWrittenExtraFactorIsOne. |
| Indicators.AsWrittenExtraFactorAtLeast | pages/5_Indicadores.py:167 | For non-negative rates, the factor as written is at least 1 and at least every 1 + rate it multiplies. |
| Indicators.AsWrittenExtraFactorIsOne | pages/5_Indicadores.py:167 | For non-negative rates, the factor as written is 1 exactly when every rate up to that year is 0. |
| Indicators.AsWrittenExtraFactorFivefold | pages/5_Indicadores.py:167 | At 4%, 1,000 in the first year is booked as 5,000 instead of 1,040. |
| Indicators.CorrectedExtraAtFourPercent | pages/5_Indicadores.py:166-168 | The corrected line books 1,040. |
| Indicators.CagrAsWritten | pages/5_Indicadores.py:29-37 | 0 when the initial value or the periods are not positive. |
| Indicators.CagrAsWrittenCollapseIsGrowth | pages/5_Indicadores.py:33-36 | As written, a profit falling from 100 to 0 over four periods reads as +100% a year. |
| Indicators.CagrAsWrittenPositiveOnLoss | pages/5_Indicadores.py:33-36 | As written, any final value ≤ 0 smaller in size than the initial one gives a positive rate. |
| Indicators.Cagr | pages/5_Indicadores.py:29-37 | 0 under the guard; never positive for a final value ≤ 0; and as written for a positive final value. |
| Indicators.CagrSign | pages/5_Indicadores.py:29-37 | For a positive final value the rate is positive iff the value grew, 0 iff it stayed, and never below -100. A final 0 gives -100, and any other non-positive final gives a negative rate unless it is exactly −initial. |
| Indicators.Percent | pages/5_Indicadores.py:232-234 | 0 for a zero denominator, otherwise 100 × num / den. |
| Indicators.AveragePrice | pages/5_Indicadores.py:202 | Value per sack when sacks are positive, otherwise 0. |
| Indicators.Coverage | pages/5_Indicadores.py:269-276 | DSCR is infinite exactly without debt service, and otherwise operating profit over it. |
| Indicators.BreakEven | pages/5_Indicadores.py:281-284 | 0 without area or price; otherwise the yield whose value pays the year's seven expense lines. |
| Indicators.ScenarioIndicators | pages/5_Indicadores.py:195-302 | Every yearly list has one entry per year label. The value of each entry is stated by RevenueShares, OtherRatios and BreakEvenAndGrowth. (corrected growth rate, Finding 4) |
| Indicators.IndebtednessLine | pages/5_Indicadores.py:249-255 | The append loop gives the extra-operational line as a percentage of revenue, 0 without revenue. |
| Indicators.DscrLine | pages/5_Indicadores.py:269-276 | The append loop gives infinity exactly in the years without debt service, and the coverage ratio otherwise. |
| Indicators.CalculateIndicators | pages/5_Indicadores.py:195-302 | The page's computation gives the scenario's indicators. (corrected growth rate, Finding 4) |
| Indicators.RevenueShares | pages/5_Indicadores.py:232-265 | Margin, indebtedness and cost-to-revenue are 0 without revenue, and otherwise the percentage of revenue. |
| Indicators.BreakEvenAndGrowth | pages/5_Indicadores.py:281-295 | Year i's break-even is BreakEven: with area and a mean price it times area × mean price gives that year's total expenses. Both growth rates are the corrected Cagr of the first and last years. With positive first and last revenues, the revenue rate is positive iff revenue grew. (corrected growth rate, Finding 4) |
| Indicators.OtherRatios | pages/5_Indicadores.py:236-300 | Return, liquidity, productivity, cost per hectare and ROA are 0 for a zero denominator and the ratio otherwise. DSCR is infinite exactly without debt service. |
| Indicators.AssetsNeverZero | pages/5_Indicadores.py:150 | For non-negative plantings, assets are at least 1,000,000, so ROA always divides. |
| Indicators.Finites | pages/5_Indicadores.py:531 | The finite DSCR entries; empty exactly when every entry is infinite. |
| Indicators.DscrMean | pages/5_Indicadores.py:531-532 | Infinite exactly when every entry is; otherwise the mean of the finite entries. |
| Indicators.DscrMeanIgnoresInfinite | pages/5_Indicadores.py:531-532 | An infinite entry changes neither the finite entries nor their mean. |
| Indicators.BaseRevenuePerHectare | pages/5_Indicadores.py:517 | Base value per hectare, or 0 when area or sacks are 0. |
| Indicators.ToneOf | pages/5_Indicadores.py:538-588 | A topic's statement is the warning exactly when its threshold fires. |
| Indicators.Alarm | pages/5_Indicadores.py:538-588 | A DSCR warning needs a finite yearly DSCR. A break-even warning needs nonzero area and sacks. |
| Indicators.AlarmWitness | pages/5_Indicadores.py:538-588 | Every warning that an average raises has a year of the list itself on the wrong side of the threshold. For DSCR this is a finite year below 1.25. |
| Indicators.FinancialOpinion | pages/5_Indicadores.py:536-590 | Ten statements in the page's order, each the warning exactly when its threshold fires. (corrected growth rate, Finding 4) |
| Indicators.DscrWarningNeedsDebt | pages/5_Indicadores.py:568 | A DSCR warning needs a year with debt service. |
| Indicators.ProfitWarningMeansDecline | pages/5_Indicadores.py:585 | With the corrected rate, the profit warning fires only for a positive first-year profit that ends lower. It does fire then, unless the last year is the exact mirror loss. |
| Indicators.CropRows | pages/5_Indicadores.py:327-343 | One summary row per crop. |
| Indicators.CropRowsSums | pages/5_Indicadores.py:328-334 | A crop's revenue and area are the sums over its plantings. |
| Indicators.CropRowsPerHectare | pages/5_Indicadores.py:342 | Revenue per hectare is 0 for a crop without area, and otherwise revenue over area. |
| Indicators.CropRowsNames | pages/5_Indicadores.py:329-333 | Each row names a registered crop and no crop has two rows. |
| Indicators.CropRowsTotal | pages/5_Indicadores.py:328-334 | The crop revenues add up to the harvest's base-year value. |
| Indicators.FirstUnknownCategory | pages/5_Indicadores.py:352 | None exactly when every additional revenue is Operacional or Extra Operacional. |
| Indicators.ExtraRows | pages/5_Indicadores.py:354-361 | At most two extra rows, each with a positive sum, no area and no revenue per hectare. |
| Indicators.RevenueSummary | pages/5_Indicadores.py:327-361 | Fails exactly on an unknown category (KeyError); otherwise the crop rows come first. |
| Indicators.SummarizeRevenue | pages/5_Indicadores.py:327-361 | The page's loops give that summary. |
| Indicators.ExtraSums | pages/5_Indicadores.py:346-352 | The two base sums, or the first category the dict has no key for. |
| Indicators.CropTotals | pages/5_Indicadores.py:328-334 | The `culturas` loop gives the grouped revenue and area per crop. |
| Narrative.TiersMonotone | utils/ppt_generator_melhorado.py:141-162 | The three-tier margin and growth verdicts never worsen as the figure grows. |
| Narrative.MarginVerdict | utils/ppt_generator_melhorado.py:141-162 | Poor exactly below 10%, good exactly from 20%. |
| Narrative.GrowthVerdict | utils/ppt_generator_melhorado.py:321-335 | Poor exactly for negative growth, good exactly from 5%. |
| Narrative.SlideVerdict | utils/ppt_generator_melhorado.py:141-335 | Productivity is never poor and break-even never good. Every other topic except margin and growth is poor or good, never in between. |
| Narrative.AveragesOf | utils/ppt_generator_melhorado.py:116-125 | The block of means: the margin mean times the count gives the sum, the DSCR mean is infinite exactly when every year is, and the growth rate is passed through. AveragesAreMeans states the same for every other mean. |
| Narrative.AveragesAreMeans | utils/ppt_generator_melhorado.py:116-125 | Each of the eight list means times its list's length gives the list's sum. |
| Narrative.ConsolidatedOpinion | utils/ppt_generator_melhorado.py:130-339 | One verdict per topic in the report's order, each chosen by that topic's threshold. |
| Narrative.SlideAgreesWithPage | utils/ppt_generator_melhorado.py:114 | On eight of the ten topics the report warns exactly when the indicators page does. |
| Narrative.SlideProductivityDiffers | utils/ppt_generator_melhorado.py:228 | On productivity they disagree: 6000 per hectare against a base of 10000 warns on the page but is "good" on the slide. |
| Narrative.MeanOrZero | utils/ppt_generator_melhorado.py:348-352 | `np.mean(d.get(k, [0]))`: 0 for a missing key, otherwise the mean. |
| Narrative.CropRevenueTotal | utils/ppt_generator_melhorado.py:355-356 | 0 for a crop without projected revenues, and never negative when its yearly revenues are not. |
| Narrative.YearsRevenue | utils/ppt_generator_melhorado.py:356 | The sum over the report's years, a missing year counting 0: never negative for non-negative revenues, and 0 when no year is recorded. |
| Narrative.EstimatedProfit | utils/ppt_generator_melhorado.py:357 | Revenue × margin / 100 for a positive margin, otherwise 0. |
| Narrative.EstimatedProfitBounds | utils/ppt_generator_melhorado.py:357 | With a margin of at most 100%, the profit lies between 0 and the revenue. |
| Narrative.CropOpinion | utils/ppt_generator_melhorado.py:343-467 | The appends give the crop's sections, the efficiency figures included. |
| Narrative.RateOrZero | utils/ppt_generator_melhorado.py:418-419 | `d.get(k, 0)`: the stored rate when the key is present, otherwise 0. |
| Narrative.CropSectionsShape | utils/ppt_generator_melhorado.py:345-465 | "Insufficient data" alone exactly when there are no indicators. Otherwise the operational figures come first and the advice last. Per-hectare figures appear iff there is area, and growth iff the profit rate is not 0. The efficiency figures (the means of return, liquidity, ROA and cost-to-revenue, l.348-352 and l.407-415) come right after the profitability verdict. |
| Narrative.CropSections | utils/ppt_generator_melhorado.py:345-465 | Only "insufficient data" exactly when the crop has no indicators. Otherwise four to six sections, from operations to the recommendation. |
| Narrative.PerHectareFigures | utils/ppt_generator_melhorado.py:370-376 | The per-hectare yearly figures times area and years give back the totals. |
| Narrative.StatusMatchesRecommendation | utils/ppt_generator_melhorado.py:686 | A highly recommended crop is green, a recommended one is not red, and a red one needs attention. |
| Narrative.Status | utils/ppt_generator_melhorado.py:686 | Red exactly when the margin verdict is poor. Green needs margin ≥ 15. |
| Narrative.RecommendationTiers | utils/ppt_generator_melhorado.py:442-465 | Each recommendation holds exactly under its condition. |
| Narrative.RecommendationOf | utils/ppt_generator_melhorado.py:442-458 | "Highly recommended" needs margin ≥ 15, return ≥ 0.2 and growth ≥ 0. Any recommendation needs margin ≥ 10 and return ≥ 0.15. |
| Narrative.DifferenceAsWritten | utils/ppt_generator_melhorado.py:626-627 | As written: 0 for a zero projection, otherwise the change over the projected total itself. |
| Narrative.DifferenceAsWrittenFlipsOnLoss | utils/ppt_generator_melhorado.py:626-627 | Over a projected loss of 100, halving it reads -50% and doubling it reads +100%. |
| Narrative.Difference | utils/ppt_generator_melhorado.py:626-627 | The change over the projected total's magnitude (corrected, Finding 5). |
| Narrative.DifferenceSign | utils/ppt_generator_melhorado.py:626-627 | The corrected change is positive iff the total improved. It agrees with the written one over a projected profit. |
| Narrative.CompareScenarios | utils/ppt_generator_melhorado.py:621-645 | Skipped below two rows. Fails (KeyError) exactly when there are at least two rows and no scenario is named "Projetado". Otherwise high risk iff \|pessimistic change\| > 20, and big opportunity iff optimistic change > 15. (corrected difference, Finding 5) |
| Narrative.ComparisonFlags | utils/ppt_generator_melhorado.py:644-645 | High risk is a pessimistic total more than 20% of the projected magnitude away. Big opportunity is an optimistic total more than 15% above it. An absent scenario raises no flag. |
| Narrative.RiskBand | utils/ppt_generator_melhorado.py:644 | \|difference\| > 20 iff the distance exceeds a fifth of the projected magnitude. |
| Narrative.OpportunityBand | utils/ppt_generator_melhorado.py:645 | difference > 15 iff the gain exceeds 15% of the projected magnitude. |
| Narrative.Negated | utils/ppt_generator_melhorado.py:746-760 | Each outflow amount with its sign turned. |
| Narrative.CashFlowSlide | utils/ppt_generator_melhorado.py:744-762 | Ten rows over the years, the last being net profit. |
| Narrative.ClosedIsChained | utils/dre.py:77-97 | Every statement `calcular_dre` closes follows the subtotal chain. |
| Narrative.SlideAddsUp | utils/ppt_generator_melhorado.py:750-761 | EBITDA is the operating result and the first five rows add up to it. The net flow is EBITDA plus the outflows below plus the unshown extra revenue, so the shown rows add up iff that is 0. |

## Left out

- Rendering and interaction are not modelled: Streamlit widgets, reruns and messages, Plotly charts, table styling, currency formatting, slide construction and the Excel export (`generate_excel_export`). They hold no decision logic beyond what is modelled above.
- utils/ppt_generator.py, pages/2_Ajuste_de_Cenarios.py, utils/session.py, utils/2_Historico.py and teste_ppt.py are not part of this model. They are display pages, configuration file I/O or sample data.
- Floating point: amounts are exact reals, so rounding, NaN and `float("inf")` arithmetic are not modelled. Infinity appears only as the `Infinite` DSCR sentinel.
- Plantings.PlantingRegistry.Register: takes the new id as a fresh parameter instead of modelling `uuid.uuid4()`.
- Indicators.Cagr and Indicators.CagrAsWritten: the fractional power `** (1 / periodos)` is a function parameter. Its facts (not negative, 0 only at 0, on the same side of 1 as its argument) are assumed through the `IsRoot` predicate, so no value of the rate is computed.
- Ledger.Group, Ledger.GroupTable and Expenses.Projection: pandas `groupby` sorts its keys, and the model keeps first-occurrence order. The rows and their values are the same, but their order may differ.
- CashFlow.CropRevenues: the same holds for the crop chart grouped with `groupby(level=0, axis=1)`.
- Frames.RowValue: reading a missing row gives the empty row, where pandas raises KeyError. The page only reads rows it has just assigned.
- CashFlow.CashFlowBalance: holds for a stored flow with stripped names and no expense named "Impostos Sobre Resultado". Such an expense would be overwritten at l.138 and leave the balance as written untrue.
- Indicators.FinancialOpinion, Narrative.CropOpinion and Narrative.ConsolidatedOpinion: the opinion texts become a topic with a tone or a verdict. ConsolidatedOpinion takes the block of means (`Narrative.AveragesOf`) rather than the lists.
- Indicators.FinancialOpinion and Narrative.CropOpinion: both require every averaged list to be non-empty. The mean of an empty list is NaN in numpy, which is not modelled.
- Narrative.CropOpinion: requires at least one year label, since the report reads `anos[0]` (utils/ppt_generator_melhorado.py:480) before building any opinion.
- Dre.CalculateDre: requires every revenue and extra-revenue vector, and the adjusted flow's lines, to span five years. A shorter vector raises IndexError in the source, which is not modelled.
- Dre.CalculateDre: its unused parameters (`hectares_total`, `total_sacas`, `preco_total`) are dropped. Loans are typed records, so the bare `except` at l.72-73 is modelled only for labels missing from `anos`.
- utils/dre.py l.44-47 (zero result tax when the adjusted flow lacks it) is unreachable, because that line is one of the seven required at l.9-19. The model has no such branch.
- Indicators.BaseData: the scenario parameters copied with defaults at pages/5_Indicadores.py:182-187 are only displayed, so they are not modelled. The statements of each scenario come in as parameters, as the page reads them from the session.
- The report's crop summary table (utils/ppt_generator_melhorado.py:670-687) is modelled only through its status mark (`Narrative.Status`). Its area sum is the per-crop area of `Indicators.CropRowsSums`.
- Expenses.ExpenseSession.Submit: requires the form's widget bounds (a non-negative amount, an offered category). The widgets enforce these, so no submission outside them reaches the code.

## Findings

Findings are numbered 1 to 5 in the order of this table; rows of the model table cite them by number.

| source | as written | input that shows it | evidently intended | confidence | as-written member | corrected member |
|---|---|---|---|---|---|---|
| pages/5_Indicadores.py:167 | The operational additional revenue is carried by Π(1 + inflacoes[j]), with the percentage not divided by 100. | The default rate of 4.0 and a revenue of 1,000 applied in "Ano 1" give 5,000. | Π(1 + inflacoes[j]/100), as every other factor in the application computes it, which gives 1,040. | high, not executed | Indicators.AsWrittenExtraFactorFivefold | Indicators.CorrectedExtraAtFourPercent |
| pages/3_Despesas.py:125-126 | Delete pops entry i and leaves `editing_expense_index` as it was. | Two expenses; edit the second, then delete the first. The index 1 now points past the list, and l.40 raises IndexError. With three expenses the edit moves to another expense. | The edit index follows its entry: cleared if that entry is deleted, moved down one if it lies after it. | high, not executed | Expenses.DeleteAsWrittenLeavesStaleIndex | Expenses.ExpenseSession.Delete |
| pages/4_Fluxo_de_Caixa.py:16-18 | The guard checks only that the key "fluxo_caixa" exists. | "Limpar Tudo" on the expense page stores None under that key (pages/3_Despesas.py:168). The guard passes and l.29 calls `.drop` on None. | Stop with the warning unless a frame is stored. | high, not executed | CashFlow.ClearedFlowPassesGuard | CashFlow.Guard |
| pages/5_Indicadores.py:33-36 | For a final value ≤ 0 the rate is ((\|final\|/initial)^(1/n) − 1) × −100. | A profit going from 100 to 0 over four periods gives +100%, and no "negative profit growth" warning. | A decline, as the comment says: a negative rate, −100% at 0. | high, not executed | Indicators.CagrAsWrittenCollapseIsGrowth | Indicators.Cagr |
| utils/ppt_generator_melhorado.py:626-627 | The scenario difference divides by the projected total itself. | Projected profit −100 and optimistic −200 give +100%, which raises "big opportunity" for a loss twice as large. | Divide by the magnitude of the projected total, so the sign follows the direction of the change. | medium, not executed | Narrative.DifferenceAsWrittenFlipsOnLoss | Narrative.Difference |
