/**
 * The budget balancer: an object holding a snapshot of one user's incomes and
 * expenses, whose analysis combines totals, savings ratio, status, expense
 * distribution, monthly trend and insights into one report.
 */
module Balancer {
  import opened Records
  import opened Sequences
  import opened Rounding
  import opened Totals
  import opened Distribution
  import opened Trend
  import opened Insights

  /** The headline figures of a report. */
  datatype Budget = Budget(
    totalIncome: real,
    totalExpense: real,
    balance: real,
    savingsRatio: real,
    status: Status)

  datatype Report = Report(
    budget: Budget,
    distribution: seq<Share>,
    trend: seq<MonthSummary>,
    insights: seq<Insight>)

  /** The totals, balance, savings ratio and status of the given records. */
  function BudgetOf(incomes: seq<Income>, expenses: seq<Expense>): Budget {
    var totalIncome := TotalIncome(incomes);
    var totalExpense := TotalExpense(expenses);
    var balance := totalIncome - totalExpense;
    var savingsRatio := Percent(balance, totalIncome);
    Budget(totalIncome, totalExpense, balance, savingsRatio, StatusOf(balance, savingsRatio))
  }

  /** The report the analysis produces for the given records. */
  function Analysis(incomes: seq<Income>, expenses: seq<Expense>): Report {
    var distribution := DistributionOf(expenses, TotalExpense(expenses));
    var trend := TrendOf(incomes, expenses);
    Report(BudgetOf(incomes, expenses), distribution, trend, InsightsOf(trend, distribution))
  }

  class BudgetBalancer {
    var incomes: seq<Income>
    var expenses: seq<Expense>

    /** Takes a snapshot of the collections; later changes to the caller's collections do not reach it. */
    constructor (incomes: seq<Income>, expenses: seq<Expense>)
      ensures this.incomes == incomes && this.expenses == expenses
    {
      this.incomes := incomes;
      this.expenses := expenses;
    }

    /**
     * Computes the report. The method may modify nothing (it has no modifies
     * clause), so the stored records are the same afterwards.
     */
    method Analyze() returns (report: Report)
      ensures report == Analysis(incomes, expenses)
    {
      report := AnalyzeRecords(incomes, expenses);
    }

    /** The status part of the analysis of the same records. */
    method SuggestBudgetPlan() returns (status: Status)
      ensures status == Analysis(incomes, expenses).budget.status
    {
      var report := Analyze();
      status := report.budget.status;
    }
  }

  /** The body of the analysis, over the records the balancer holds. */
  method AnalyzeRecords(incomes: seq<Income>, expenses: seq<Expense>) returns (report: Report)
    ensures report == Analysis(incomes, expenses)
  {
    var totalIncome := TotalIncome(incomes);
    var totalExpense := TotalExpense(expenses);
    var balance := totalIncome - totalExpense;
    var savingsRatio := Percent(balance, totalIncome);
    var status := StatusOf(balance, savingsRatio);
    var budget := Budget(totalIncome, totalExpense, balance, savingsRatio, status);
    assert budget == BudgetOf(incomes, expenses);
    var distribution := BuildDistribution(expenses, totalExpense);
    var trend := MonthlyTrend(incomes, expenses);
    var insights := BuildInsights(trend, distribution);
    report := Report(budget, distribution, trend, insights);
  }

  /**
   * The headline figures: the balance is
   * income minus expense, the ratio is 0 when there is no income and otherwise
   * the balance as a rounded percentage of income, and the status follows the
   * sign of the balance.
   */
  lemma BudgetFigures(incomes: seq<Income>, expenses: seq<Expense>)
    ensures var r := BudgetOf(incomes, expenses);
      && r.totalIncome == SumOf(incomes, IncomeAmount)
      && r.totalExpense == SumOf(expenses, ExpenseAmount)
      && r.balance == r.totalIncome - r.totalExpense
      && (r.totalIncome == 0.0 ==> r.savingsRatio == 0.0)
      && (r.totalIncome != 0.0 ==> r.savingsRatio == Round2(r.balance / r.totalIncome * 100.0))
      && (r.status.WithinBudget? <==> r.balance > 0.0)
      && (r.status.BreakingEven? <==> r.balance == 0.0)
      && (r.status.Overspent? <==> r.balance < 0.0)
      && (r.status.WithinBudget? ==> r.status.savingsRatio == r.savingsRatio)
      && (r.status.Overspent? ==> r.status.excess == r.totalExpense - r.totalIncome)
  {
    var r := BudgetOf(incomes, expenses);
    if r.totalIncome != 0.0 {
      PercentOfNonZero(r.balance, r.totalIncome);
    }
  }

  /**
   * With no income and no negative expense amount, the ratio is 0 and the
   * status is "breaking even" or "overspent", never "within budget".
   */
  lemma ZeroIncomeGuard(incomes: seq<Income>, expenses: seq<Expense>)
    requires TotalIncome(incomes) == 0.0
    requires forall i :: 0 <= i < |expenses| ==> expenses[i].amount >= 0.0
    ensures BudgetOf(incomes, expenses).savingsRatio == 0.0
    ensures BudgetOf(incomes, expenses).status.BreakingEven? || BudgetOf(incomes, expenses).status.Overspent?
  {
    assert TotalExpense(expenses) >= 0.0;
  }

  /**
   * The distribution of a report: one row per category, an expense without a
   * category counted in the "Uncategorized" row with its amount, amounts
   * adding up to the total expense, each percentage guarded against a zero
   * total, and rows ordered by amount, largest first.
   */
  lemma ReportDistribution(incomes: seq<Income>, expenses: seq<Expense>)
    ensures var r := Analysis(incomes, expenses);
      && DistinctBy(r.distribution, ShareCategory)
      && (forall i :: 0 <= i < |expenses| && expenses[i].category.None? ==>
            ShareOf(expenses, Uncategorized, TotalExpense(expenses)) in r.distribution)
      && SumOf(r.distribution, ShareAmount) == TotalExpense(expenses)
      && (forall s :: s in r.distribution ==> s.percentage == Percent(s.amount, TotalExpense(expenses)))
      && (TotalExpense(expenses) == 0.0 ==> forall s :: s in r.distribution ==> s.percentage == 0.0)
      && (forall i, j :: 0 <= i < j < |r.distribution| ==> r.distribution[i].amount >= r.distribution[j].amount)
  {
    var r := Analysis(incomes, expenses);
    DistributionCategoriesDistinct(expenses, TotalExpense(expenses));
    DistributionSum(expenses, TotalExpense(expenses));
    DistributionPercentages(expenses, TotalExpense(expenses));
    DistributionDescending(expenses, TotalExpense(expenses));
    forall i | 0 <= i < |expenses| && expenses[i].category.None?
      ensures ShareOf(expenses, Uncategorized, TotalExpense(expenses)) in r.distribution
    {
      MissingCategoryCounted(expenses, TotalExpense(expenses), i);
    }
  }

  /**
   * The trend of a report: exactly the months some record is dated in, 0 on
   * a side with no record that month, balance income minus expense, and
   * strictly chronological order.
   */
  lemma ReportTrend(incomes: seq<Income>, expenses: seq<Expense>)
    ensures var r := Analysis(incomes, expenses);
      && (set s | s in r.trend :: s.month) == IncomeMonths(incomes) + ExpenseMonths(expenses)
      && (forall s :: s in r.trend ==>
            (s.month !in IncomeMonths(incomes) ==> s.income == 0.0) &&
            (s.month !in ExpenseMonths(expenses) ==> s.expense == 0.0) &&
            s.balance == s.income - s.expense)
      && (forall i, j :: 0 <= i < j < |r.trend| ==> Before(r.trend[i].month, r.trend[j].month))
  {
    var r := Analysis(incomes, expenses);
    TrendRows(incomes, expenses);
    TrendOuterJoin(incomes, expenses);
    TrendChronological(incomes, expenses);
    forall k | k in IncomeMonths(incomes) + ExpenseMonths(expenses)
      ensures k in (set s | s in r.trend :: s.month)
    {
      assert SummaryOf(incomes, expenses, k) in r.trend;
    }
  }

  /**
   * The insights of a report: never empty; first the overspend notes, one per
   * month with a negative balance, chronologically; the top-category note
   * exactly when the first distribution row's rounded share is above 50, as
   * the last note; the balanced note exactly when neither rule fired, and then alone;
   * and nothing else.
   */
  lemma ReportInsights(incomes: seq<Income>, expenses: seq<Expense>)
    ensures var r := Analysis(incomes, expenses);
      var notes := OverspendNotes(r.trend);
      && |r.insights| >= 1
      && r.insights[..|notes|] == notes
      && (forall n :: n in notes <==>
            exists s :: s in r.trend && s.balance < 0.0 && n == OverspentIn(s.month, -s.balance))
      && ChronologicalNotes(notes)
      && ((exists n :: n in r.insights && n.MostExpensesOn?) <==>
            |r.distribution| > 0 && r.distribution[0].percentage > 50.0)
      && (|r.distribution| > 0 && r.distribution[0].percentage > 50.0 ==>
            r.insights[|r.insights| - 1] == MostExpensesOn(r.distribution[0].category, r.distribution[0].percentage))
      && (|r.distribution| > 0 && r.distribution[0].percentage > 50.0 ==>
            r.insights == notes + [MostExpensesOn(r.distribution[0].category, r.distribution[0].percentage)])
      && (!(|r.distribution| > 0 && r.distribution[0].percentage > 50.0) && notes != [] ==>
            r.insights == notes)
      && ((Balanced in r.insights) <==>
            (forall s :: s in r.trend ==> s.balance >= 0.0) &&
            !(|r.distribution| > 0 && r.distribution[0].percentage > 50.0))
      && (Balanced in r.insights ==> r.insights == [Balanced])
  {
    var r := Analysis(incomes, expenses);
    InsightRules(r.trend, r.distribution);
    BalancedFallback(r.trend, r.distribution);
    OverspendNotesExact(r.trend);
    TrendChronological(incomes, expenses);
    OverspendNotesChronological(r.trend);
  }

  /**
   * The top-category note fires exactly when the largest category's exact
   * share of a non-zero total expense is above 50.005%: the share is rounded
   * to two decimals before the strict comparison with 50, and a share of
   * exactly 50.005% rounds to the even 50.00.
   */
  lemma TopCategoryThreshold(trend: seq<MonthSummary>, expenses: seq<Expense>)
    ensures var total := TotalExpense(expenses);
      var dist := DistributionOf(expenses, total);
      (exists n :: n in InsightsOf(trend, dist) && n.MostExpensesOn?) <==>
        |dist| > 0 && total != 0.0 && dist[0].amount / total * 100.0 > 50.005
  {
    var total := TotalExpense(expenses);
    var dist := DistributionOf(expenses, total);
    assert (exists n :: n in InsightsOf(trend, dist) && n.MostExpensesOn?) <==>
      |dist| > 0 && dist[0].percentage > 50.0 by {
      InsightRules(trend, dist);
    }
    if |dist| > 0 {
      var top := dist[0];
      assert top.percentage == Percent(top.amount, total) by {
        DistributionPercentages(expenses, total);
        assert top in dist;
      }
      if total != 0.0 {
        PercentOfNonZero(top.amount, total);
        AboveFiftyAfterRounding(top.amount / total * 100.0);
      }
    }
  }
}
