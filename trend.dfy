/**
 * The monthly trend: incomes and expenses bucketed by calendar month,
 * outer-joined on the month (a month seen on one side only gets 0 on the
 * other), sorted chronologically, with each month's balance.
 */
module Trend {
  import opened Records
  import opened Sequences
  import opened Sorting

  /** One row of the trend. */
  datatype MonthSummary = MonthSummary(month: MonthKey, income: real, expense: real, balance: real)

  /** A month's running totals while the records are scanned. */
  datatype Bucket = Bucket(income: real, expense: real)

  ghost function IncomeMonths(incomes: seq<Income>): set<MonthKey> {
    set i | i in incomes :: IncomeMonth(i)
  }

  ghost function ExpenseMonths(expenses: seq<Expense>): set<MonthKey> {
    set e | e in expenses :: ExpenseMonth(e)
  }

  lemma IncomeMonthsAppend(incomes: seq<Income>, i: Income)
    ensures IncomeMonths(incomes + [i]) == IncomeMonths(incomes) + {IncomeMonth(i)}
  {
    assert forall x :: x in incomes + [i] <==> x in incomes || x == i;
  }

  lemma ExpenseMonthsAppend(expenses: seq<Expense>, e: Expense)
    ensures ExpenseMonths(expenses + [e]) == ExpenseMonths(expenses) + {ExpenseMonth(e)}
  {
    assert forall x :: x in expenses + [e] <==> x in expenses || x == e;
  }

  /** The months of the incomes in the order they are first met. */
  function IncomeMonthOrder(incomes: seq<Income>): (keys: seq<MonthKey>)
    ensures Distinct(keys)
    ensures forall k :: k in keys <==> k in IncomeMonths(incomes)
    decreases |incomes|
  {
    if incomes == [] then []
    else
      var prefix := incomes[..|incomes| - 1];
      var last := incomes[|incomes| - 1];
      var prior := IncomeMonthOrder(prefix);
      var k := IncomeMonth(last);
      assert incomes == prefix + [last];
      IncomeMonthsAppend(prefix, last);
      if k in prior then prior else prior + [k]
  }

  /** The months in start, followed by the new months of the expenses in the order they are first met. */
  function ExpenseMonthOrder(start: seq<MonthKey>, expenses: seq<Expense>): (keys: seq<MonthKey>)
    ensures Distinct(start) ==> Distinct(keys)
    ensures forall k :: k in keys <==> k in start || k in ExpenseMonths(expenses)
    decreases |expenses|
  {
    if expenses == [] then start
    else
      var prefix := expenses[..|expenses| - 1];
      var last := expenses[|expenses| - 1];
      var prior := ExpenseMonthOrder(start, prefix);
      var k := ExpenseMonth(last);
      assert expenses == prefix + [last];
      ExpenseMonthsAppend(prefix, last);
      if k in prior then prior else prior + [k]
  }

  /** The key order of the source's dictionary of monthly totals: incomes are scanned first. */
  function MonthOrder(incomes: seq<Income>, expenses: seq<Expense>): seq<MonthKey> {
    ExpenseMonthOrder(IncomeMonthOrder(incomes), expenses)
  }

  /** The total income dated in month k. */
  function MonthIncome(incomes: seq<Income>, k: MonthKey): real
    decreases |incomes|
  {
    if incomes == [] then 0.0
    else
      var last := incomes[|incomes| - 1];
      MonthIncome(incomes[..|incomes| - 1], k) + (if IncomeMonth(last) == k then last.amount else 0.0)
  }

  /** The total expense dated in month k. */
  function MonthExpense(expenses: seq<Expense>, k: MonthKey): real
    decreases |expenses|
  {
    if expenses == [] then 0.0
    else
      var last := expenses[|expenses| - 1];
      MonthExpense(expenses[..|expenses| - 1], k) + (if ExpenseMonth(last) == k then last.amount else 0.0)
  }

  /** A month without incomes has income 0. */
  lemma {:induction false} MonthIncomeAbsent(incomes: seq<Income>, k: MonthKey)
    requires k !in IncomeMonths(incomes)
    ensures MonthIncome(incomes, k) == 0.0
    decreases |incomes|
  {
    if incomes != [] {
      var prefix := incomes[..|incomes| - 1];
      var last := incomes[|incomes| - 1];
      assert incomes == prefix + [last];
      IncomeMonthsAppend(prefix, last);
      MonthIncomeAbsent(prefix, k);
    }
  }

  /** A month without expenses has expense 0. */
  lemma {:induction false} MonthExpenseAbsent(expenses: seq<Expense>, k: MonthKey)
    requires k !in ExpenseMonths(expenses)
    ensures MonthExpense(expenses, k) == 0.0
    decreases |expenses|
  {
    if expenses != [] {
      var prefix := expenses[..|expenses| - 1];
      var last := expenses[|expenses| - 1];
      assert expenses == prefix + [last];
      ExpenseMonthsAppend(prefix, last);
      MonthExpenseAbsent(prefix, k);
    }
  }

  function SummaryOf(incomes: seq<Income>, expenses: seq<Expense>, k: MonthKey): MonthSummary {
    var income := MonthIncome(incomes, k);
    var expense := MonthExpense(expenses, k);
    MonthSummary(k, income, expense, income - expense)
  }

  /** The rows for the given months, in that order. */
  function Summaries(incomes: seq<Income>, expenses: seq<Expense>, months: seq<MonthKey>): (rows: seq<MonthSummary>)
    ensures |rows| == |months|
    decreases |months|
  {
    if months == [] then []
    else Summaries(incomes, expenses, months[..|months| - 1]) + [SummaryOf(incomes, expenses, months[|months| - 1])]
  }

  lemma {:induction false} SummariesAt(incomes: seq<Income>, expenses: seq<Expense>, months: seq<MonthKey>)
    ensures forall i :: 0 <= i < |months| ==>
      Summaries(incomes, expenses, months)[i] == SummaryOf(incomes, expenses, months[i])
    decreases |months|
  {
    if months != [] {
      var months' := months[..|months| - 1];
      SummariesAt(incomes, expenses, months');
      assert forall i :: 0 <= i < |months'| ==> months'[i] == months[i];
    }
  }

  lemma SummariesPrefix(incomes: seq<Income>, expenses: seq<Expense>, months: seq<MonthKey>, i: nat)
    requires i < |months|
    ensures Summaries(incomes, expenses, months[..i + 1])
         == Summaries(incomes, expenses, months[..i]) + [SummaryOf(incomes, expenses, months[i])]
  {
    assert months[..i + 1][..i] == months[..i];
  }

  /** The months in chronological order. */
  function SortedMonths(incomes: seq<Income>, expenses: seq<Expense>): seq<MonthKey> {
    Sort(MonthOrder(incomes, expenses), MonthRank)
  }

  /** The trend the analysis reports. */
  function TrendOf(incomes: seq<Income>, expenses: seq<Expense>): seq<MonthSummary> {
    Summaries(incomes, expenses, SortedMonths(incomes, expenses))
  }

  /**
   * The trend has one row for each month in which some income or some
   * expense is dated, and no other rows; each row carries that month's totals.
   */
  lemma TrendRows(incomes: seq<Income>, expenses: seq<Expense>)
    ensures forall s :: s in TrendOf(incomes, expenses) <==>
      (s.month in IncomeMonths(incomes) || s.month in ExpenseMonths(expenses)) &&
      s == SummaryOf(incomes, expenses, s.month)
  {
    var months := SortedMonths(incomes, expenses);
    var trend := TrendOf(incomes, expenses);
    SummariesAt(incomes, expenses, months);
    SortMembers(MonthOrder(incomes, expenses), MonthRank);
    forall s ensures s in trend <==>
      (s.month in months && s == SummaryOf(incomes, expenses, s.month))
    {
      if s in trend {
        var k :| 0 <= k < |trend| && trend[k] == s;
        assert s.month == months[k];
      }
      if s.month in months && s == SummaryOf(incomes, expenses, s.month) {
        var k :| 0 <= k < |months| && months[k] == s.month;
        assert trend[k] == s;
      }
    }
  }

  /**
   * A month seen on one side only has 0 on the other side, and every row's
   * balance is its income minus its expense.
   */
  lemma TrendOuterJoin(incomes: seq<Income>, expenses: seq<Expense>)
    ensures forall s :: s in TrendOf(incomes, expenses) ==>
      (s.month !in IncomeMonths(incomes) ==> s.income == 0.0) &&
      (s.month !in ExpenseMonths(expenses) ==> s.expense == 0.0) &&
      s.balance == s.income - s.expense
  {
    TrendRows(incomes, expenses);
    forall s | s in TrendOf(incomes, expenses)
      ensures s.month !in IncomeMonths(incomes) ==> s.income == 0.0
      ensures s.month !in ExpenseMonths(expenses) ==> s.expense == 0.0
    {
      if s.month !in IncomeMonths(incomes) {
        MonthIncomeAbsent(incomes, s.month);
      }
      if s.month !in ExpenseMonths(expenses) {
        MonthExpenseAbsent(expenses, s.month);
      }
    }
  }

  /** The rows are strictly increasing by month, across year boundaries too. */
  lemma TrendChronological(incomes: seq<Income>, expenses: seq<Expense>)
    ensures var trend := TrendOf(incomes, expenses);
      forall i, j :: 0 <= i < j < |trend| ==> Before(trend[i].month, trend[j].month)
  {
    var order := MonthOrder(incomes, expenses);
    var months := SortedMonths(incomes, expenses);
    var trend := TrendOf(incomes, expenses);
    assert DistinctBy(order, MonthRank) by {
      forall i, j | 0 <= i < j < |order| ensures MonthRank(order[i]) != MonthRank(order[j]) {
        MonthRankOrder(order[i], order[j]);
      }
    }
    SortDistinctBy(order, MonthRank, MonthRank);
    SortAscending(order, MonthRank);
    SummariesAt(incomes, expenses, months);
    forall i, j | 0 <= i < j < |trend| ensures Before(trend[i].month, trend[j].month) {
      assert trend[i].month == months[i] && trend[j].month == months[j];
      MonthRankOrder(months[i], months[j]);
    }
  }

  /** data holds, for exactly the months in keys, the month's income and expense totals. */
  ghost predicate Tallied(data: map<MonthKey, Bucket>, keys: seq<MonthKey>, incomes: seq<Income>, expenses: seq<Expense>) {
    && (forall k :: k in data <==> k in keys)
    && (forall k :: k in data ==> data[k] == Bucket(MonthIncome(incomes, k), MonthExpense(expenses, k)))
  }

  /** The pass over the incomes, adding each amount into its month's bucket. */
  method TallyIncomes(incomes: seq<Income>) returns (keys: seq<MonthKey>, data: map<MonthKey, Bucket>)
    ensures keys == IncomeMonthOrder(incomes)
    ensures Tallied(data, keys, incomes, [])
  {
    keys := [];
    data := map[];
    for i := 0 to |incomes|
      invariant keys == IncomeMonthOrder(incomes[..i])
      invariant Tallied(data, keys, incomes[..i], [])
    {
      var k := IncomeMonth(incomes[i]);
      assert incomes[..i + 1][..i] == incomes[..i];
      if k !in data {
        MonthIncomeAbsent(incomes[..i], k);
        keys := keys + [k];
      }
      var b := if k in data then data[k] else Bucket(0.0, 0.0);
      data := data[k := Bucket(b.income + incomes[i].amount, b.expense)];
      forall m | m in data
        ensures data[m] == Bucket(MonthIncome(incomes[..i + 1], m), MonthExpense([], m))
      {
        assert MonthIncome(incomes[..i + 1], m)
          == MonthIncome(incomes[..i], m) + (if k == m then incomes[i].amount else 0.0);
      }
    }
    assert incomes[..|incomes|] == incomes;
  }

  /** The pass over the expenses, continuing the dictionary the incomes started. */
  method TallyExpenses(incomes: seq<Income>, expenses: seq<Expense>, keys0: seq<MonthKey>, data0: map<MonthKey, Bucket>)
    returns (keys: seq<MonthKey>, data: map<MonthKey, Bucket>)
    requires keys0 == IncomeMonthOrder(incomes)
    requires Tallied(data0, keys0, incomes, [])
    ensures keys == MonthOrder(incomes, expenses)
    ensures Tallied(data, keys, incomes, expenses)
  {
    keys, data := keys0, data0;
    for j := 0 to |expenses|
      invariant keys == ExpenseMonthOrder(keys0, expenses[..j])
      invariant Tallied(data, keys, incomes, expenses[..j])
    {
      var k := ExpenseMonth(expenses[j]);
      assert expenses[..j + 1][..j] == expenses[..j];
      if k !in data {
        MonthIncomeAbsent(incomes, k);
        MonthExpenseAbsent(expenses[..j], k);
        keys := keys + [k];
      }
      var b := if k in data then data[k] else Bucket(0.0, 0.0);
      data := data[k := Bucket(b.income, b.expense + expenses[j].amount)];
      forall m | m in data
        ensures data[m] == Bucket(MonthIncome(incomes, m), MonthExpense(expenses[..j + 1], m))
      {
        assert MonthExpense(expenses[..j + 1], m)
          == MonthExpense(expenses[..j], m) + (if k == m then expenses[j].amount else 0.0);
      }
    }
    assert expenses[..|expenses|] == expenses;
  }

  /** The pass over the sorted months, turning each month's totals into a row. */
  method RowsFor(incomes: seq<Income>, expenses: seq<Expense>, months: seq<MonthKey>,
                 keys: seq<MonthKey>, data: map<MonthKey, Bucket>) returns (trend: seq<MonthSummary>)
    requires Tallied(data, keys, incomes, expenses)
    requires forall m :: m in months ==> m in keys
    ensures trend == Summaries(incomes, expenses, months)
  {
    trend := [];
    for i := 0 to |months|
      invariant trend == Summaries(incomes, expenses, months[..i])
    {
      var b := data[months[i]];
      trend := trend + [MonthSummary(months[i], b.income, b.expense, b.income - b.expense)];
      SummariesPrefix(incomes, expenses, months, i);
    }
    assert months[..|months|] == months;
  }

  /**
   * Builds the trend as the source does: the two passes above fill a
   * dictionary of per-month totals whose keys remember their insertion order;
   * then the months are sorted and each becomes a row.
   */
  method MonthlyTrend(incomes: seq<Income>, expenses: seq<Expense>) returns (trend: seq<MonthSummary>)
    ensures trend == TrendOf(incomes, expenses)
  {
    var keys0, data0 := TallyIncomes(incomes);
    var keys, data := TallyExpenses(incomes, expenses, keys0, data0);
    var a := new MonthKey[|keys|](n requires 0 <= n < |keys| => keys[n]);
    assert a[..] == keys;
    SortInPlace(a, MonthRank);
    SortMembers(keys, MonthRank);
    trend := RowsFor(incomes, expenses, a[..], keys, data);
  }
}
