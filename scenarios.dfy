/**
 * Worked examples of the analysis on small concrete inputs: an income with no
 * expense, an overspent month dominated by one category, and the strict 50%
 * boundary of the top-category note.
 */
module Scenarios {
  import opened Records
  import opened Sequences
  import opened Sorting
  import opened Rounding
  import opened Totals
  import opened Distribution
  import opened Trend
  import opened Insights
  import opened Balancer

  const January2024: Date := Date(2024, 1, 1)
  const January: MonthKey := MonthKey(2024, 1)

  const Salary: seq<Income> := [Income(100.0, January2024)]

  /** A single income and no expense: everything is saved, and the balanced note stands alone. */
  lemma OnlyIncome()
    ensures var r := Analysis(Salary, []);
      && r.budget.balance == 100.0
      && r.budget.savingsRatio == 100.0
      && r.budget.status == WithinBudget(100.0)
      && r.distribution == []
      && r.trend == [MonthSummary(January, 100.0, 0.0, 100.0)]
      && r.insights == [Balanced]
  {
    var expenses: seq<Expense> := [];
    assert TotalIncome(Salary) == 100.0 by {
      assert Salary[..0] == [];
      assert SumOf(Salary, IncomeAmount) == SumOf(Salary[..0], IncomeAmount) + IncomeAmount(Salary[0]);
    }
    assert Percent(100.0, 100.0) == 100.0 by {
      assert RoundHalfEven(10000.0) == 10000;
    }
    assert TrendOf(Salary, expenses) == [MonthSummary(January, 100.0, 0.0, 100.0)] by {
      assert Salary[..0] == [];
      assert IncomeMonthOrder(Salary) == [January];
      assert MonthOrder(Salary, expenses) == [January];
      assert [January][..0] == [];
      assert SortedMonths(Salary, expenses) == [January];
      assert MonthIncome(Salary, January) == 100.0;
    }
  }

  const Wage: seq<Income> := [Income(1000.0, January2024)]
  const Meals: seq<Expense> :=
    [Expense(600.0, Date(2024, 1, 5), Some("Food")), Expense(500.0, Date(2024, 1, 10), Some("Food"))]

  lemma MealsTotal()
    ensures TotalExpense(Meals) == 1100.0
  {
    assert Meals[..1] == [Meals[0]] && Meals[..1][..0] == [];
    assert SumOf(Meals[..1], ExpenseAmount) == SumOf(Meals[..1][..0], ExpenseAmount) + ExpenseAmount(Meals[0]);
    assert SumOf(Meals, ExpenseAmount) == SumOf(Meals[..1], ExpenseAmount) + ExpenseAmount(Meals[1]);
  }

  lemma MealsDistribution()
    ensures DistributionOf(Meals, 1100.0) == [Share("Food", 1100.0, 100.0)]
  {
    var food := Share("Food", 1100.0, 100.0);
    assert Meals[..1] == [Meals[0]] && Meals[..1][..0] == [];
    assert Percent(1100.0, 1100.0) == 100.0 by {
      assert RoundHalfEven(10000.0) == 10000;
    }
    assert CategoryOrder(Meals[..1]) == ["Food"];
    assert CategoryOrder(Meals) == ["Food"];
    assert CategoryTotal(Meals, "Food") == 1100.0;
    assert ["Food"][..0] == [];
    assert SharesOf(Meals, ["Food"], 1100.0) == [food];
    assert [food][..0] == [];
  }

  lemma MealsTrend()
    ensures TrendOf(Wage, Meals) == [MonthSummary(January, 1000.0, 1100.0, -100.0)]
  {
    assert Wage[..0] == [];
    assert Meals[..1] == [Meals[0]] && Meals[..1][..0] == [];
    assert IncomeMonthOrder(Wage) == [January];
    assert ExpenseMonthOrder([January], Meals[..1]) == [January];
    assert MonthOrder(Wage, Meals) == [January];
    assert [January][..0] == [];
    assert SortedMonths(Wage, Meals) == [January];
    assert MonthIncome(Wage, January) == 1000.0;
    assert MonthExpense(Meals, January) == 1100.0;
  }

  lemma MealsBudget()
    ensures BudgetOf(Wage, Meals).totalExpense == 1100.0
    ensures BudgetOf(Wage, Meals).balance == -100.0
    ensures BudgetOf(Wage, Meals).status == Overspent(100.0)
  {
    assert TotalIncome(Wage) == 1000.0 by {
      assert Wage[..0] == [];
      assert SumOf(Wage, IncomeAmount) == SumOf(Wage[..0], IncomeAmount) + IncomeAmount(Wage[0]);
    }
    MealsTotal();
  }

  lemma MealsInsights()
    ensures InsightsOf([MonthSummary(January, 1000.0, 1100.0, -100.0)], [Share("Food", 1100.0, 100.0)])
         == [OverspentIn(January, 100.0), MostExpensesOn("Food", 100.0)]
  {
    var row := MonthSummary(January, 1000.0, 1100.0, -100.0);
    assert [row][..0] == [];
    assert OverspendNotes([row]) == [OverspentIn(January, 100.0)];
  }

  /**
   * Two food expenses exceed the month's income: the month is overspent by
   * 100, food holds the whole distribution, and both rules fire in order.
   */
  lemma OverspentOnFood()
    ensures var r := Analysis(Wage, Meals);
      && r.budget.totalExpense == 1100.0
      && r.budget.balance == -100.0
      && r.budget.status == Overspent(100.0)
      && r.distribution == [Share("Food", 1100.0, 100.0)]
      && r.insights == [OverspentIn(January, 100.0), MostExpensesOn("Food", 100.0)]
  {
    MealsBudget();
    MealsTotal();
    MealsDistribution();
    MealsTrend();
    MealsInsights();
  }

  const FoodAndRent: seq<Expense> :=
    [Expense(500.0, January2024, Some("Food")), Expense(500.0, January2024, Some("Rent"))]

  lemma FoodAndRentTotals()
    ensures TotalExpense(FoodAndRent) == 1000.0
    ensures CategoryTotal(FoodAndRent, "Food") == 500.0
    ensures CategoryTotal(FoodAndRent, "Rent") == 500.0
  {
    var expenses := FoodAndRent;
    assert expenses[..1] == [expenses[0]] && expenses[..1][..0] == [];
    assert SumOf(expenses[..1], ExpenseAmount) == SumOf(expenses[..1][..0], ExpenseAmount) + ExpenseAmount(expenses[0]);
    assert SumOf(expenses, ExpenseAmount) == SumOf(expenses[..1], ExpenseAmount) + ExpenseAmount(expenses[1]);
    assert "Food"[0] != "Rent"[0];
    assert CategoryTotal(expenses[..1], "Food") == 500.0;
    assert CategoryTotal(expenses[..1], "Rent") == 0.0;
  }

  lemma FoodAndRentOrder()
    ensures CategoryOrder(FoodAndRent) == ["Food", "Rent"]
  {
    var expenses := FoodAndRent;
    assert expenses[..1] == [expenses[0]] && expenses[..1][..0] == [];
    assert "Food"[0] != "Rent"[0];
    assert CategoryOrder(expenses[..1]) == ["Food"];
  }

  lemma FoodAndRentShares()
    ensures SharesOf(FoodAndRent, ["Food", "Rent"], 1000.0) == [Share("Food", 500.0, 50.0), Share("Rent", 500.0, 50.0)]
  {
    FoodAndRentTotals();
    assert Percent(500.0, 1000.0) == 50.0 by {
      assert RoundHalfEven(5000.0) == 5000;
    }
    assert ["Food", "Rent"][..1] == ["Food"] && ["Food"][..0] == [];
  }

  lemma FoodAndRentDistribution()
    ensures DistributionOf(FoodAndRent, 1000.0) == [Share("Food", 500.0, 50.0), Share("Rent", 500.0, 50.0)]
  {
    var shares := [Share("Food", 500.0, 50.0), Share("Rent", 500.0, 50.0)];
    FoodAndRentOrder();
    FoodAndRentShares();
    assert shares[..1] == [shares[0]] && shares[..1][..0] == [];
    assert Sort(shares[..1], NegatedAmount) == [shares[0]];
    assert Sort(shares, NegatedAmount) == shares;
  }

  /** A category holding exactly half of the spending does not fire the top-category note. */
  lemma ExactlyHalfIsNotDominant()
    ensures var r := Analysis([], FoodAndRent);
      && r.distribution == [Share("Food", 500.0, 50.0), Share("Rent", 500.0, 50.0)]
      && (forall n :: n in r.insights ==> !n.MostExpensesOn?)
  {
    FoodAndRentTotals();
    FoodAndRentDistribution();
    InsightRules(TrendOf([], FoodAndRent), DistributionOf(FoodAndRent, 1000.0));
  }
}
