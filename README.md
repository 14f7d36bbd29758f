# Budget balancer — a verified model

The budget balancer takes a snapshot of one user's incomes and expenses and
analyses it into one report:

- **budget status**: total income, total expense, balance (income minus
  expense), savings ratio (the balance as a percentage of income, rounded to
  two decimals, 0 when there is no income) and a three-way status chosen by
  the sign of the balance ("within budget", "breaking even", "overspent");
- **expense distribution**: one row per category name (an expense without a
  category counts under "Uncategorized"), with the category's total and its
  percentage of the total expense (0 when that total is 0), sorted by amount,
  largest first, ties in the order the categories were first met;
- **monthly trend**: one row per calendar month in which some income or
  expense is dated, with the month's income, expense and balance, a side with
  no record that month being 0, in chronological order;
- **insights**: one overspend note per month with a negative balance, in
  trend order; then a note on the top category when its rounded percentage is
  strictly above 50; and a single "spending is balanced" note when neither
  rule fired.

The model is split as the analysis is:

| file | module | contents |
|---|---|---|
| `records.dfy` | `Records` | income and expense records, category names, calendar months and their order |
| `sequences.dfy` | `Sequences` | left-to-right sums, filtering by key, distinctness |
| `rounding.dfy` | `Rounding` | round-half-to-even to two decimals and the guarded percentage |
| `totals.dfy` | `Totals` | totals and the budget status |
| `sorting.dfy` | `Sorting` | the stable sort: a specification on values and an in-place insertion sort on an array proved equal to it |
| `distribution.dfy` | `Distribution` | the category distribution: specification, its properties, and the three passes that build it |
| `trend.dfy` | `Trend` | the monthly trend: specification, its properties, and the passes that build it |
| `insights.dfy` | `Insights` | the insight rules and the pass that builds the list |
| `balancer.dfy` | `Balancer` | the `BudgetBalancer` class, the whole report and its properties |
| `scenarios.dfy` | `Scenarios` | three worked examples computed by the verifier |

Every loop of the source is a method with a loop (`TallyCategories`,
`SharesFor`, `SortInPlace`, `TallyIncomes`, `TallyExpenses`, `RowsFor`,
`OverspendPass`) whose `ensures` ties its result to a specification function.
The methods built from them tie theirs the same way (`BuildDistribution` to
`DistributionOf`, `MonthlyTrend` to `TrendOf`, `BuildInsights` to
`InsightsOf`, `Analyze` to `Analysis`); the properties are lemmas about those
functions.

Modelling decisions:

- Amounts are exact `real`s. Python's `round(x, 2)` is modelled as rounding
  the exact value to two decimals, a tie going to the even neighbour.
- Python's `sort(key=..., reverse=True)` is a stable sort; it equals a stable
  ascending sort on the negated key. One stable insertion sort (`Sorting.Sort`
  on values, `Sorting.SortInPlace` on an array) serves both the distribution
  (key: negated amount) and the month order (key: the month's rank).
- A month label (`'%b %Y'`) is modelled by the `(year, month)` pair it
  names; parsing the label back and sorting by the resulting date is sorting
  by `year * 12 + month - 1` (`Records.MonthRank`).
- A Python dictionary's insertion order is modelled by a sequence of keys
  beside a `map`.
- The status and insight messages are modelled by the values they show:
  `Status.WithinBudget(savingsRatio)`, `Status.Overspent(excess)` with
  `excess` the absolute value of the negative balance,
  `Insight.OverspentIn(month, excess)`,
  `Insight.MostExpensesOn(category, percentage)`, `Insight.Balanced`.
- Both percentage guards follow the code: the division is skipped when the
  total is zero (a truthiness test, `!= 0`). For a negative total income
  (possible only with negative amounts) the ratio is still computed, because
  the code tests `if total_income`.

## Model

| member | source | states |
|---|---|---|
| Balancer.BudgetBalancer.constructor | core_app/algorithms/budget_balancer.py:11-17 | the balancer holds exactly the record sequences it was given |
| Balancer.BudgetBalancer.Analyze | core_app/algorithms/budget_balancer.py:19-108 | the report is `Analysis` of the held records, and the held records are not changed |
| Balancer.AnalyzeRecords | core_app/algorithms/budget_balancer.py:21-108 | the totals, status, distribution pass, trend pass and insight pass together produce exactly `Analysis(incomes, expenses)` |
| Balancer.BudgetBalancer.SuggestBudgetPlan | core_app/algorithms/budget_balancer.py:110-113 | the suggestion is the status of the same analysis |
| Balancer.BudgetOf | core_app/algorithms/budget_balancer.py:23-33 | the headline figures; characterised by `BudgetFigures` and `ZeroIncomeGuard` |
| Balancer.Analysis | core_app/algorithms/budget_balancer.py:19-108 | the whole report; characterised by `BudgetFigures`, `ReportDistribution`, `ReportTrend`, `ReportInsights` and `TopCategoryThreshold`, and computed by `AnalyzeRecords` |
| Records.CategoryName | core_app/algorithms/budget_balancer.py:38-38 | the category's name, or "Uncategorized" without a category; characterised by `Distribution.MissingCategoryCounted` and `Distribution.CategoryOrder` |
| Distribution.CategoryTotal | core_app/algorithms/budget_balancer.py:36-39 | the sum of the amounts grouped under a name; characterised by `CategoryTotalAbsent`, `CategorySumStep` and `CategorySumIsTotal`, and computed by `TallyCategories` |
| Distribution.ShareOf | core_app/algorithms/budget_balancer.py:41-48 | one row: name, category total and guarded percentage; characterised by `SharesOfAt` and `DistributionRows` |
| Distribution.DistributionOf | core_app/algorithms/budget_balancer.py:36-51 | the reported distribution; characterised by `DistributionRows`, `DistributionSum`, `DistributionCategoriesDistinct`, `DistributionPercentages`, `DistributionDescending` and `DistributionTiesInEncounterOrder`, and computed by `BuildDistribution` |
| Trend.MonthIncome | core_app/algorithms/budget_balancer.py:55-57 | the income dated in a month; characterised by `MonthIncomeAbsent` and computed by `TallyIncomes` |
| Trend.MonthExpense | core_app/algorithms/budget_balancer.py:59-61 | the expense dated in a month; characterised by `MonthExpenseAbsent` and computed by `TallyExpenses` |
| Trend.SummaryOf | core_app/algorithms/budget_balancer.py:65-73 | one row: month, its income, its expense and their difference; characterised by `SummariesAt`, `TrendRows` and `TrendOuterJoin` |
| Trend.TrendOf | core_app/algorithms/budget_balancer.py:53-73 | the reported trend; characterised by `TrendRows`, `TrendOuterJoin` and `TrendChronological`, and computed by `MonthlyTrend` |
| Insights.DominantNote | core_app/algorithms/budget_balancer.py:85-91 | the top-category note when the first row's percentage is above 50; characterised by `InsightRules` and `Balancer.TopCategoryThreshold` |
| Insights.InsightsOf | core_app/algorithms/budget_balancer.py:76-94 | the reported insights; characterised by `InsightRules`, `BalancedFallback`, `OverspendNotesExact` and `OverspendNotesChronological`, and computed by `BuildInsights` |
| Sequences.SumOf | core_app/algorithms/budget_balancer.py:23-24 | the left-to-right sum of a projection, as `sum(...)` accumulates it; characterised by `SumOfAppend`, `SumOfNonNegative` and `Distribution.CategorySumIsTotal` |
| Records.IncomeMonth | core_app/algorithms/budget_balancer.py:56-56 | the calendar month an income's label names; characterised by `Trend.IncomeMonthOrder` and `Trend.TrendRows` |
| Records.ExpenseMonth | core_app/algorithms/budget_balancer.py:60-60 | the calendar month an expense's label names; characterised by `Trend.ExpenseMonthOrder` and `Trend.TrendRows` |
| Records.MonthRank | core_app/algorithms/budget_balancer.py:64-64 | the sort key of a month label parsed back into a date; characterised by `MonthRankOrder` |
| Trend.MonthOrder | core_app/algorithms/budget_balancer.py:54-61 | the key order of the dictionary of monthly totals, income months first; characterised by `IncomeMonthOrder`, `ExpenseMonthOrder` and computed by `TallyExpenses` |
| Trend.SortedMonths | core_app/algorithms/budget_balancer.py:64-64 | the month keys sorted by date; characterised by `TrendChronological` and `TrendRows` |
| Distribution.NegatedAmount | core_app/algorithms/budget_balancer.py:51-51 | the ascending key equivalent to sorting by amount with `reverse=True`; characterised by `DistributionDescending` and `DistributionTiesInEncounterOrder` |
| Totals.TotalIncome | core_app/algorithms/budget_balancer.py:23-23 | the total income is non-negative when every income amount is |
| Totals.TotalExpense | core_app/algorithms/budget_balancer.py:24-24 | the total expense is non-negative when every expense amount is |
| Totals.StatusOf | core_app/algorithms/budget_balancer.py:28-33 | exactly one status applies: within budget iff balance > 0, breaking even iff balance = 0, overspent iff balance < 0; within budget carries the savings ratio, overspent carries the positive excess equal to the absolute balance |
| Rounding.RoundHalfEven | core_app/algorithms/budget_balancer.py:26-26 | the result is an integer within 1/2 of its argument, and an even one on a tie |
| Rounding.Round2 | core_app/algorithms/budget_balancer.py:26-26 | rounding to two decimals moves a value by at most 0.005 and keeps a non-negative value non-negative |
| Rounding.Percent | core_app/algorithms/budget_balancer.py:43-43 | the percentage is 0 for a zero total, and otherwise within 0.005 of part / whole * 100 |
| Rounding.AboveFiftyAfterRounding | core_app/algorithms/budget_balancer.py:88-88 | a value rounded to two decimals is above 50 iff the exact value is above 50.005 |
| Sequences.SumOfAppend | core_app/algorithms/budget_balancer.py:23-24 | the sum over a concatenation is the sum of the sums |
| Sequences.SumOfNonNegative | core_app/algorithms/budget_balancer.py:23-24 | a sum of non-negative terms is non-negative |
| Sequences.AppendDistinctBy | core_app/algorithms/budget_balancer.py:36-39 | appending an element with a new key keeps the keys distinct |
| Records.MonthRankOrder | core_app/algorithms/budget_balancer.py:64-64 | ordering by rank is chronological order of months, and different months have different ranks |
| Balancer.BudgetFigures | core_app/algorithms/budget_balancer.py:23-33 | totals are the sums of the amounts, balance is income minus expense, savings ratio is 0 without income and otherwise round(balance / income * 100, 2), and the status follows the sign of the balance with the ratio or the excess (expense minus income) it shows |
| Balancer.ZeroIncomeGuard | core_app/algorithms/budget_balancer.py:26-33 | with zero income and non-negative expenses, the ratio is 0 and the status is never "within budget" |
| Sorting.Insert | core_app/algorithms/budget_balancer.py:51-51 | one insertion step adds exactly one element to the multiset |
| Sorting.Sort | core_app/algorithms/budget_balancer.py:51-51 | the sorted sequence is a permutation of the input |
| Sorting.SortMembers | core_app/algorithms/budget_balancer.py:51-51 | an element is in the sorted sequence iff it is in the input |
| Sorting.InsertAscending | core_app/algorithms/budget_balancer.py:51-51 | inserting into an ascending sequence keeps it ascending |
| Sorting.SortAscending | core_app/algorithms/budget_balancer.py:51-51 | the sorted sequence is ascending by key |
| Sorting.KeyFilterAppend | core_app/algorithms/budget_balancer.py:51-51 | filtering by key distributes over appending one element |
| Sorting.InsertStable | core_app/algorithms/budget_balancer.py:51-51 | an insertion puts the new element after every earlier element with the same key |
| Sorting.SortStable | core_app/algorithms/budget_balancer.py:51-51 | stability: the elements sharing any one key leave the sort in the order they entered it |
| Sorting.InsertSum | core_app/algorithms/budget_balancer.py:51-51 | an insertion adds the new element's term to any sum |
| Sorting.SortSum | core_app/algorithms/budget_balancer.py:51-51 | sorting does not change a sum over the elements |
| Sorting.InsertDistinctBy | core_app/algorithms/budget_balancer.py:51-51 | inserting an element with a new projection keeps projections distinct |
| Sorting.SortDistinctBy | core_app/algorithms/budget_balancer.py:51-51 | sorting keeps distinct projections distinct |
| Sorting.InsertAt | core_app/algorithms/budget_balancer.py:51-51 | the inserted element lands after every key at most its own and before every larger key |
| Sorting.ShiftLarger | core_app/algorithms/budget_balancer.py:51-51 | the shifting loop moves every larger-keyed element of the sorted prefix one place right, leaving a gap where the element belongs, and changes nothing else |
| Sorting.InsertInPlace | core_app/algorithms/budget_balancer.py:51-51 | one in-place insertion step turns the prefix into `Insert` of the old prefix and element, leaving the rest of the array |
| Sorting.SortPrefix | core_app/algorithms/budget_balancer.py:51-51 | sorting one more element is inserting it into the sorted prefix |
| Sorting.SortInPlace | core_app/algorithms/budget_balancer.py:51-51 | the in-place insertion sort leaves exactly `Sort` of the original contents in the array |
| Distribution.CategoriesOfAppend | core_app/algorithms/budget_balancer.py:37-38 | one more expense adds its category name to the set of categories |
| Distribution.CategoryOrder | core_app/algorithms/budget_balancer.py:36-39 | the dictionary's keys are distinct and are exactly the category names of the expenses, an expense without a category giving "Uncategorized" |
| Distribution.CategoryTotalAbsent | core_app/algorithms/budget_balancer.py:36-39 | a category no expense is grouped under totals 0 |
| Distribution.SharesOf | core_app/algorithms/budget_balancer.py:41-48 | there is one row per category name |
| Distribution.SharesOfAt | core_app/algorithms/budget_balancer.py:41-48 | row i names the i-th category, with its total and its guarded percentage of the total expense |
| Distribution.CategorySumStep | core_app/algorithms/budget_balancer.py:39-39 | adding one expense adds its amount to exactly one category total |
| Distribution.CategorySumIsTotal | core_app/algorithms/budget_balancer.py:36-39 | the category totals add up to the total expense |
| Distribution.SharesSum | core_app/algorithms/budget_balancer.py:41-48 | the rows' amounts add up to the sum of the category totals |
| Distribution.DistributionSum | core_app/algorithms/budget_balancer.py:36-51 | the amounts of the reported distribution add up to the total expense |
| Distribution.DistributionCategoriesDistinct | core_app/algorithms/budget_balancer.py:36-51 | no category appears twice in the distribution |
| Distribution.DistributionRows | core_app/algorithms/budget_balancer.py:36-51 | a row is in the distribution iff it is the row of a category some expense is grouped under, with its total and guarded percentage |
| Distribution.MissingCategoryCounted | core_app/algorithms/budget_balancer.py:38-38 | an expense without a category is counted in the "Uncategorized" row |
| Distribution.DistributionPercentages | core_app/algorithms/budget_balancer.py:43-43 | each percentage is the guarded percentage of its amount: 0 for a zero total expense, otherwise within 0.005 of the exact share |
| Distribution.DistributionDescending | core_app/algorithms/budget_balancer.py:51-51 | the rows are ordered by amount, largest first |
| Distribution.DistributionTiesInEncounterOrder | core_app/algorithms/budget_balancer.py:51-51 | rows of equal amount keep the order in which their categories were first met |
| Distribution.TallyCategories | core_app/algorithms/budget_balancer.py:36-39 | the pass over the expenses yields the category names in first-met order and, for each, exactly its total |
| Distribution.SharesFor | core_app/algorithms/budget_balancer.py:41-48 | the pass over the dictionary yields the rows of `SharesOf`, in key order |
| Distribution.BuildDistribution | core_app/algorithms/budget_balancer.py:35-51 | the two passes and the in-place sort produce exactly `DistributionOf` |
| Trend.IncomeMonthsAppend | core_app/algorithms/budget_balancer.py:55-57 | one more income adds its month to the income months |
| Trend.ExpenseMonthsAppend | core_app/algorithms/budget_balancer.py:59-61 | one more expense adds its month to the expense months |
| Trend.IncomeMonthOrder | core_app/algorithms/budget_balancer.py:54-57 | the keys the income pass creates are distinct and are exactly the months of the incomes |
| Trend.ExpenseMonthOrder | core_app/algorithms/budget_balancer.py:59-61 | the expense pass keeps the existing keys distinct and adds exactly the expense months |
| Trend.MonthIncomeAbsent | core_app/algorithms/budget_balancer.py:54-57 | a month with no income has income 0 |
| Trend.MonthExpenseAbsent | core_app/algorithms/budget_balancer.py:59-61 | a month with no expense has expense 0 |
| Trend.Summaries | core_app/algorithms/budget_balancer.py:63-73 | there is one row per month |
| Trend.SummariesAt | core_app/algorithms/budget_balancer.py:63-73 | row i is the i-th month with its income, expense and balance |
| Trend.SummariesPrefix | core_app/algorithms/budget_balancer.py:63-73 | one more month appends one more row |
| Trend.TrendRows | core_app/algorithms/budget_balancer.py:54-73 | a row is in the trend iff it is the summary of a month in which some income or expense is dated |
| Trend.TrendOuterJoin | core_app/algorithms/budget_balancer.py:54-73 | a month with no income has income 0, one with no expense has expense 0, and every balance is income minus expense |
| Trend.TrendChronological | core_app/algorithms/budget_balancer.py:64-64 | the rows are in strictly increasing month order, across years too |
| Trend.TallyIncomes | core_app/algorithms/budget_balancer.py:54-57 | the income pass creates the month keys in first-met order, each bucket holding the month's income and 0 expense |
| Trend.TallyExpenses | core_app/algorithms/budget_balancer.py:59-61 | the expense pass extends the keys in first-met order, each bucket holding the month's income and expense |
| Trend.RowsFor | core_app/algorithms/budget_balancer.py:63-73 | the pass over the sorted months yields exactly their summaries |
| Trend.MonthlyTrend | core_app/algorithms/budget_balancer.py:53-73 | the passes, the sort by month and the row pass produce exactly `TrendOf` |
| Insights.OverspendNotes | core_app/algorithms/budget_balancer.py:79-83 | there are at most as many notes as months, and each is an overspend note with a positive excess |
| Insights.OverspendNotesExact | core_app/algorithms/budget_balancer.py:79-83 | a note is present iff some month has a negative balance and the note names it with the absolute balance |
| Insights.OverspendNotesChronological | core_app/algorithms/budget_balancer.py:79-83 | on a chronological trend the notes name strictly increasing months |
| Insights.InsightRules | core_app/algorithms/budget_balancer.py:76-94 | the list is non-empty and is exactly the overspend notes followed by the top-category note when the first row's percentage exceeds 50, the overspend notes alone when that rule does not fire and there are notes; the top-category note is present iff that percentage exceeds 50 |
| Insights.BalancedFallback | core_app/algorithms/budget_balancer.py:93-94 | the balanced note appears iff no month is overspent and the top-category rule did not fire, and then it is the only note |
| Insights.OverspendPass | core_app/algorithms/budget_balancer.py:79-83 | the loop over the trend yields exactly the overspend notes |
| Insights.BuildInsights | core_app/algorithms/budget_balancer.py:76-94 | the overspend loop, the top-category check and the fallback produce exactly `InsightsOf` |
| Balancer.ReportDistribution | core_app/algorithms/budget_balancer.py:35-51 | in a report, the categories are distinct, an expense without a category is counted in the "Uncategorized" row (its category total and percentage), amounts add up to the total expense, percentages are guarded and rows descend by amount |
| Balancer.ReportTrend | core_app/algorithms/budget_balancer.py:53-73 | in a report, the trend's months are exactly the income and expense months, outer-joined with zeros, in chronological order |
| Balancer.ReportInsights | core_app/algorithms/budget_balancer.py:75-94 | in a report, the insights are non-empty and are exactly the chronological overspend notes, followed by the top-category note iff the top percentage exceeds 50; the balanced note appears iff neither rule fired, and then alone |
| Balancer.TopCategoryThreshold | core_app/algorithms/budget_balancer.py:85-91 | the top-category note fires iff the largest category's exact share of a non-zero total expense is above 50.005% |
| Scenarios.OnlyIncome | core_app/algorithms/budget_balancer.py:19-108 | one income of 100 and no expense: ratio 100, within budget, empty distribution, one trend row, the balanced note only |
| Scenarios.OverspentOnFood | core_app/algorithms/budget_balancer.py:19-108 | income 1000 and two food expenses of 600 and 500: overspent by 100, food 100%, and the overspend and top-category notes in that order |
| Scenarios.ExactlyHalfIsNotDominant | core_app/algorithms/budget_balancer.py:86-91 | two categories of 500 each: both at 50%, and no top-category note since 50 is not above 50 |

## Left out

- Floating-point arithmetic: amounts are stored as floats; the model uses exact reals, so rounding errors of float sums and divisions are not modelled (the two-decimal rounding itself is).
- Month labels: `strftime('%b %Y')` and `strptime` are modelled by the `(year, month)` pair; the locale-dependent label text is not modelled. Every date is assumed to survive the round trip through its label; a label the source cannot parse back (for instance a year below 1000 printed without zero padding on some platforms) would make the sort raise, and the model, whose month keys accept any year, has no such failure.
- Message text: the emoji, currency sign and number formatting of the status and insight messages are not modelled; each message is modelled by the values it shows.
- Integer versus float zero: the source's savings ratio is the integer `0` without income, a percentage is the integer `0` for a zero total expense, and a month's untouched side is the integer `0`; the model uses the real `0.0` in each case, which equals them as numbers.
- Amount validation: the source does not check amounts, and neither does the model; lemmas that need non-negative amounts say so in their `requires`.
- A category actually named "Uncategorized" shares its row with expenses that have no category, as in the source; the model keeps that merge.
- Copying with `list(...)`: Dafny sequences are values, so the snapshot of the collections taken by the constructor needs no copy.
- Record aliasing: the source copies only the lists, so its income and expense objects stay shared and mutable, and a change to a record's amount, date or category after construction reaches `analyze()`; the model treats records as immutable values, so that aliasing is not captured.
- Querysets, the database and the Django views and forms that call the balancer are not part of this model.
