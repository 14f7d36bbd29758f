/**
 * The records the analysis reads: incomes and expenses, each with an amount
 * and a calendar date; an expense may name a category. Amounts are exact
 * reals (the source stores floats). Only the year and month of a date matter
 * to the analysis; the day is kept so that a record is a whole date.
 */
module Records {

  datatype Option<+T> = None | Some(value: T)

  type MonthNumber = m: int | 1 <= m <= 12 witness 1
  type DayNumber = d: int | 1 <= d <= 31 witness 1

  datatype Date = Date(year: int, month: MonthNumber, day: DayNumber)

  datatype Income = Income(amount: real, date: Date)

  datatype Expense = Expense(amount: real, date: Date, category: Option<string>)

  /** The bucket an expense without a category is counted under. */
  const Uncategorized: string := "Uncategorized"

  function IncomeAmount(i: Income): real { i.amount }

  function ExpenseAmount(e: Expense): real { e.amount }

  /** The category name an expense is grouped under. */
  function CategoryName(e: Expense): string {
    match e.category
    case Some(name) => name
    case None => Uncategorized
  }

  /** A calendar month: the key the monthly trend is bucketed by. */
  datatype MonthKey = MonthKey(year: int, month: MonthNumber)

  function IncomeMonth(i: Income): MonthKey { MonthKey(i.date.year, i.date.month) }

  function ExpenseMonth(e: Expense): MonthKey { MonthKey(e.date.year, e.date.month) }

  /** a is a calendar month strictly before b. */
  predicate Before(a: MonthKey, b: MonthKey) {
    a.year < b.year || (a.year == b.year && a.month < b.month)
  }

  /**
   * The position of a month on the calendar, counted in months. Sorting by it
   * is sorting by the first day of the month, which is what the source does
   * when it parses its month labels back into dates.
   */
  function MonthRank(k: MonthKey): real {
    (k.year * 12 + k.month - 1) as real
  }

  /** Ranks order months chronologically, and different months have different ranks. */
  lemma MonthRankOrder(a: MonthKey, b: MonthKey)
    ensures MonthRank(a) < MonthRank(b) <==> Before(a, b)
    ensures MonthRank(a) == MonthRank(b) <==> a == b
  {
  }
}
