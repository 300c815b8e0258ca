# MegaCost cost engine — a Dafny model

MegaCost is a browser dashboard for tracking the cost of construction projects: solar plants (GES) and roads (YOL).
This project models the parts of it that compute something:

- the per-project earned-value metrics (`getProjectMetrics`): actual cost (AC), earned value (EV), cost performance index (CPI), estimate at completion (EAC), variance and unit cost;
- the insight service's own copy of those formulas, and its per-category expense roll-up;
- adding an expense to the application state;
- the CSV export;
- the dashboard's chart rows, its stat-card totals and averages, and its critical flag.

Amounts, budgets and percentages are exact `real`s. Every sum that models a `reduce` is a left fold in list order, as `Array.prototype.reduce` computes it.

Modules, one per part of the program:

- `Types` (`types.dfy`): the records of `types.ts`.
- `Metrics` (`metrics.dfy`): `getProjectMetrics` and the filter and sum beneath it.
- `Insight` (`insight.dfy`): the figures of `getAiCostInsights`. The category roll-up is a method whose loop updates a map.
- `Report` (`report.dfy`): the CSV text, with `Join` and the matching `Split` used to state what the text contains.
- `Dashboard` (`dashboard.dfy`): the chart data, the stat-card reductions and the critical flag.
- `Store` (`store.dfy`): the application state as a class `CostStore`. Its methods add an expense and show an insight. The two browser-storage entries are fields that `AddExpense` overwrites.

Every degenerate case in the source is handled by substituting a value rather than failing, and the model keeps each substitution:

- CPI is exactly 1 while AC is not positive.
- EAC falls back to the budget when CPI is not positive.
- The progress factor becomes 1 at 0 % progress.
- The capacity text becomes "1" when it is absent or empty.
- The project cell of a CSV row becomes "N/A" when no project matches.
- The shown insight becomes "Yanıt alınamadı." when the answer is absent or empty.

Two cases would produce Infinity or NaN in the source. The model makes them preconditions instead:

- a capacity that parses to 0;
- an average taken over zero projects.

## Model

| member | source | states |
|---|---|---|
| `Types.ExpenseTypeName` | types.ts:33 | every expense type is written as a non-empty literal, one of `MATERIAL`, `LABOR`, `MACHINE`, `OTHER` |
| `Types.ExpenseTypeNameInjective` | types.ts:33 | distinct expense types have distinct literals, so the text of the CSV's type cell identifies the type |
| `Metrics.FilterByProject` | App.tsx:83 | the filtered list holds exactly the expenses whose project id equals the given id, and is no longer than the input |
| `Metrics.SumAmounts` | App.tsx:84 | the reduce over amounts is non-negative when every amount is |
| `Metrics.ActualCost` | App.tsx:83-84 | AC is non-negative when every expense of the project has a non-negative amount |
| `Metrics.ActualCostIsSpend` | App.tsx:83-84 | AC equals an independent sum in which each expense adds its amount if its project id matches and 0 otherwise |
| `Metrics.EarnedValue` | App.tsx:85 | EV * 100 = budget * percentComplete; EV is 0 at 0 % and the whole budget at 100 %; EV lies in [0, budget] for progress in [0, 100] |
| `Metrics.CostPerformanceIndex` | App.tsx:86 | CPI is exactly 1 when AC is not positive; otherwise CPI * AC = EV, and CPI is positive exactly when EV is |
| `Metrics.EstimateAtCompletion` | App.tsx:87 | when CPI > 0, EAC * CPI = budget; otherwise EAC = budget; at CPI = 1, EAC = budget |
| `Metrics.ProgressFactor` | App.tsx:89 | the factor is never 0: it is 1 at 0 % progress and percentComplete/100 otherwise |
| `Metrics.CapacityText` | App.tsx:88 | the capacity text is "1" when absent or empty and the typed text otherwise |
| `Metrics.UnitCost` | App.tsx:88-89 | unit cost * (capacity * progress factor) = AC; at 0 % progress, unit cost * capacity = AC |
| `Metrics.ProjectCpi` | App.tsx:83-86 | a project's CPI over the whole list: 1 while its AC is not positive, otherwise CPI * AC = EV; never negative when the budget is non-negative and progress lies in [0, 100] |
| `Metrics.ProjectEac` | App.tsx:83-87 | a project's EAC over the whole list: EAC * CPI = budget when CPI > 0, the budget otherwise; positive whenever the budget is |
| `Metrics.ProjectVariance` | App.tsx:97 | budget minus EAC; negative exactly when EAC exceeds the budget |
| `Metrics.GetProjectMetrics` | App.tsx:82-100 | AC is the project's actual cost and plannedValue the budget; EV, CPI, EAC and unit cost satisfy the relations above including the sentinel cases; variance + EAC = budget; CPI, EAC and variance equal the capacity-free `ProjectCpi`, `ProjectEac` and `ProjectVariance` |
| `Metrics.SumAmountsConcat` | App.tsx:84 | the amount sum of a concatenation is the sum of the parts' sums |
| `Metrics.FilterConcat` | App.tsx:83 | filtering distributes over concatenation |
| `Metrics.FilterSingleton` | App.tsx:83 | a one-expense list keeps the expense exactly when it belongs to the project |
| `Metrics.FilterNone` | App.tsx:83 | a list without expenses of the project filters to the empty list |
| `Metrics.ActualCostPrepend` | App.tsx:83-84 | putting an expense in front raises its own project's AC by its amount and leaves every other project's AC unchanged |
| `Metrics.FilterSkipsOther` | App.tsx:83 | an expense of another project, inserted anywhere, does not change the filtered list |
| `Metrics.OtherProjectExpenseIrrelevant` | App.tsx:82-100 | inserting an expense of another project anywhere leaves every metric of this project unchanged |
| `Metrics.NoExpensesMetrics` | App.tsx:84-89 | with no expense booked on the project: AC = 0, CPI = 1, EAC = budget, variance = 0, unit cost = 0 |
| `Metrics.SpendWithoutProgress` | App.tsx:85-87 | with positive spend and 0 % progress: CPI = 0, so EAC falls back to the budget and variance is 0 |
| `Metrics.EacFromSpendAndProgress` | App.tsx:84-87 | with AC > 0, progress > 0 and budget > 0: EAC * percentComplete = AC * 100, i.e. EAC = AC * 100 / progress |
| `Metrics.UnitCostDefaultCapacity` | App.tsx:88-89 | with an absent or empty capacity (parsed as 1), unit cost * progress factor = AC; at 0 % progress, unit cost = AC |
| `Insight.InsightFiguresOf` | services/geminiService.ts:8-12 | the service's AC is the sum of the list it is given; its EV, CPI, EAC and variance obey the same definitions and sentinels as the dashboard's |
| `Insight.InsightAgreesWithMetrics` | services/geminiService.ts:8-12 | given the id-filtered list (as App.tsx:145 passes it), the service's AC, EV, CPI, EAC and variance equal those of `GetProjectMetrics` |
| `Insight.CategoryTotals` | services/geminiService.ts:26-29 | the loop builds a map whose keys are exactly the categories in the list, empty for an empty list; each value is the sum of that category's amounts, and the values add up to AC |
| `Insight.CategorySumAbsent` | services/geminiService.ts:26-29 | a category that no expense carries sums to 0 |
| `Insight.Accumulate` | services/geminiService.ts:27 | one step of the reduce: the expense's category gains an entry if new, that entry grows by the amount (from 0 when new), and every other entry is unchanged |
| `Insight.CategoryTableSnoc` | services/geminiService.ts:27 | one more expense adds its amount to its category's entry, creating the entry at 0 + amount when the category is new |
| `Insight.MapTotalRemove` | services/geminiService.ts:26-29 | the total of a map's values can be taken starting from any key |
| `Insight.MapTotalAccumulate` | services/geminiService.ts:27 | one step of the reduce raises the total of the map's values by the expense's amount |
| `Insight.CategoryTableTotal` | services/geminiService.ts:26-29 | the category totals add up to the AC of the list |
| `Insight.CategorySumConcat` | services/geminiService.ts:26-29 | a category's total over a concatenation is the sum of its totals over the parts |
| `Insight.CategorySumPermutation` | services/geminiService.ts:26-29 | reordering the expenses leaves every category's total unchanged |
| `Insight.CategoryTableOrderIndependent` | services/geminiService.ts:26-29 | two lists with the same expenses in any order give the same category map |
| `Report.Join` | App.tsx:134 | joining nothing gives ""; the text begins with the first part, followed by the separator when more parts follow |
| `Report.Split` | App.tsx:134 | splitting text at a character always gives at least one piece (the reading used to state the export's lines) |
| `Report.FindProject` | App.tsx:126 | the lookup finds nothing exactly when no project has the id; otherwise it finds the first project with that id |
| `Report.ProjectColumn` | App.tsx:126 | the project cell is the name of the first project with a matching id; it is "N/A" when none matches or that name is empty |
| `Report.Row` | App.tsx:124-132 | a row has seven cells in the order id, project, category, description, amount, date, type |
| `Report.RowLine` | App.tsx:134 | an expense's line is its cells joined with ','; it starts with the expense's id followed by ',' |
| `Report.CsvLines` | App.tsx:123-134 | the export has one line more than there are expenses: the joined header first, then each expense's line in list order |
| `Report.JoinAvoids` | App.tsx:134 | joining parts that lack a character, with a different separator, gives text that lacks it |
| `Report.SplitWithoutSeparator` | App.tsx:134 | text without the separator splits into itself alone |
| `Report.SplitAtFirstSeparator` | App.tsx:134 | splitting at the first separator peels off the text before it |
| `Report.SplitJoin` | App.tsx:134 | splitting undoes joining whenever no part contains the separator |
| `Report.CsvContent` | App.tsx:123-134 | the export always begins with the header line, followed by '\n' when there are expenses; it is exactly the header line when there are none |
| `Report.HeaderCellsRecovered` | App.tsx:123 | the header line splits at ',' back into the seven column titles |
| `Report.CsvLinesRecovered` | App.tsx:123-134 | when no cell contains '\n', the export's lines are the header line and then one line per expense, in list order |
| `Report.RowCellsRecovered` | App.tsx:124-134 | when no cell contains ',', splitting a row's line at ',' gives back its seven cells |
| `Dashboard.DashboardData` | App.tsx:151-161 | one chart row per project, in order, carrying its name and its budget, AC and EAC divided by 1000 |
| `Dashboard.PortfolioBudget` | App.tsx:188 | the portfolio total over a non-empty list of positive budgets is positive |
| `Dashboard.EacTotal` | App.tsx:202 | the EAC total of no projects is 0; over a non-empty list of positive budgets it is positive |
| `Dashboard.ProgressSum` | App.tsx:208 | the progress total of no projects is 0 |
| `Dashboard.Mean` | App.tsx:208 | the mean of a sum over `count` items is the value whose `count` copies give the sum; it is 1 when the sum equals the count |
| `Dashboard.AverageProgress` | App.tsx:208 | mean progress: the progress sum divided by the number of projects, defined only for at least one project |
| `Dashboard.CpiSum` | App.tsx:440 | the CPI total of no projects is 0 |
| `Dashboard.AverageCpi` | App.tsx:440 | mean CPI: the CPI sum divided by the number of projects, defined only for at least one project |
| `Dashboard.IsCritical` | App.tsx:242 | a project shows as critical exactly when its EAC exceeds its budget; the flag does not depend on the capacity |
| `Dashboard.CriticalFlagOfMetrics` | App.tsx:241-242 | the flag is `variance < 0` of the project's metrics |
| `Dashboard.CriticalIffIndexBelowOne` | App.tsx:242 | with a positive budget, a project is critical exactly when 0 < CPI < 1 |
| `Dashboard.OverrunIffIndexBelowOne` | App.tsx:242 | with a positive budget and CPI, EAC = budget / CPI exceeds the budget exactly when CPI < 1 |
| `Dashboard.EacTotalWithoutSpend` | App.tsx:202 | with no spend on any project, the EAC total equals the portfolio budget |
| `Dashboard.CpiSumWithoutSpend` | App.tsx:440 | with no spend on any project, the CPI sum equals the number of projects |
| `Dashboard.AverageCpiWithoutSpend` | App.tsx:440 | with no spend on any project, the average CPI is exactly 1 |
| `Dashboard.CpiSumNonNegative` | App.tsx:440 | with non-negative budgets and progress in [0, 100], the CPI total is non-negative |
| `Dashboard.EacTotalWithinPortfolio` | App.tsx:202 | when no project shows as critical, the EAC total is at most the portfolio budget |
| `Dashboard.MeanBounds` | App.tsx:208 | a mean lies between any bounds that, taken `count` times, enclose the sum |
| `Dashboard.ProgressSumBounds` | App.tsx:208 | the progress sum lies between n * lowest and n * highest progress |
| `Dashboard.AverageProgressBounds` | App.tsx:208 | the average progress of a non-empty list lies between the lowest and highest progress, so in [0, 100] when each is |
| `Dashboard.SpendAcrossPrepend` | App.tsx:194 | one more expense adds its share to the sum of per-project actual costs |
| `Dashboard.ShareOfExpense` | App.tsx:194 | with distinct ids, an expense's share is its amount if some project has its id, and 0 otherwise |
| `Dashboard.SpendAcrossEmpty` | App.tsx:194 | with no expenses, every project's actual cost sums to 0 |
| `Dashboard.TotalSpendSplitsByProject` | App.tsx:194 | when project ids are distinct and every expense belongs to a listed project, the spend card's total equals the sum of the projects' ACs |
| `Store.NewExpense` | App.tsx:106-114 | the new expense carries the given id and date, the project chosen for entry, the parsed amount, and the form's category, description and type |
| `Store.ShownInsight` | App.tsx:147 | an absent or empty answer is shown as "Yanıt alınamadı."; any other answer is shown as it is |
| `Store.CostStore.constructor` | App.tsx:45-66 | the state starts with the two demo projects, no expenses, a blank form and the first project selected |
| `Store.CostStore.SelectProjectForEntry` | App.tsx:286 | the entry form's selected project becomes the chosen id |
| `Store.CostStore.EditDraft` | App.tsx:298 | the entry form takes the edited fields |
| `Store.CostStore.AddExpense` | App.tsx:102-120 | with an empty amount or description nothing changes; otherwise the new expense is element 0 and the old list is the tail; the form is reset and both lists are stored; the selected project's AC grows by the amount and no other AC changes |
| `Store.CostStore.AnalyzeProject` | App.tsx:142-149 | the service is given the project's own expenses, so its figures and category totals are those of the filtered list; the shown text is the answer with its fallback |
| `Store.ManisaScenario` | App.tsx:46 | the first demo project with one expense of 3,000,000: EV = 6,750,000, CPI = 2.25, EAC = 20,000,000/3 ≈ 6,666,666.67, variance = 25,000,000/3, unit cost = 1,000,000/3, not critical |

## Left out

- Rendering: React markup, tabs, charts, loading flags, `Intl.NumberFormat` and `toFixed`. The stat cards divide the budget and EAC sums by 1,000,000 for display; the model keeps the unscaled sums. `components/Sidebar.tsx` and `components/StatCard.tsx` are presentation only and are not part of this model.
- Browser storage: the load at startup (App.tsx:69-74) is input and is not modelled. `save` is modelled only as the two stored fields that `AddExpense` overwrites.
- Host library calls:
  - `parseFloat` is a function parameter, so the model says nothing about how text becomes a number.
  - The random id and today's date are parameters of `AddExpense`.
  - The number-to-text conversion of the CSV amount cell is a parameter.
  - The Blob, URL and download steps are left out.
- The text-generation request in `getAiCostInsights` is a network call and is left out: the prompt text, the model name, the try/catch with its error message, and the `toFixed` rounding in the prompt. The answer is taken as a parameter of `AnalyzeProject`.
- The JSON text of the category map is left out, and so is its key order (the map is unordered).
- The category accumulator is a plain map. The source uses a `{}` object, and category names that are names of `Object.prototype` members (`toString`, `__proto__`, …) would behave differently there.
- Floating point: rounding, NaN and Infinity are left out. A capacity that parses to 0 is a precondition of `GetProjectMetrics`. Averages require at least one project.
- The dashboard's EAC and CPI reductions, the chart rows and the critical flag use the capacity-free `ProjectEac`, `ProjectCpi` and `ProjectVariance`. `GetProjectMetrics` ensures these equal its `eac`, `cpi` and `variance`. In the source, a zero capacity affects only the unit cost, so these do not need the capacity precondition.
- CSV cells are not quoted or escaped in the source. The model therefore states the line and column structure only for cells without '\n' or ','.
- `constants.tsx` holds static budget templates with no logic and is not part of this model.
- `Project.status` is one of ACTIVE, COMPLETED, PLANNING (types.ts:18) and no computation reads it.
- `capacity` is optional text (types.ts:21), turned into a number only by `parseFloat` at App.tsx:88.
- The code does not check that budgets and amounts are positive or that progress lies in [0, 100]. The model does not assume these either; lemmas that need them take them as hypotheses.
