/**
 * The expression-level part of the analysis: total income, total expense and
 * the three-way budget status chosen by the sign of the balance.
 */
module Totals {
  import opened Records
  import opened Sequences

  /** The sum of all income amounts. */
  function TotalIncome(incomes: seq<Income>): (total: real)
    ensures (forall i :: 0 <= i < |incomes| ==> incomes[i].amount >= 0.0) ==> total >= 0.0
  {
    SumOfNonNegative(incomes, IncomeAmount);
    SumOf(incomes, IncomeAmount)
  }

  /** The sum of all expense amounts. */
  function TotalExpense(expenses: seq<Expense>): (total: real)
    ensures (forall i :: 0 <= i < |expenses| ==> expenses[i].amount >= 0.0) ==> total >= 0.0
  {
    SumOfNonNegative(expenses, ExpenseAmount);
    SumOf(expenses, ExpenseAmount)
  }

  /** The budget status; each variant carries the value its message shows. */
  datatype Status =
    | WithinBudget(savingsRatio: real)
    | BreakingEven
    | Overspent(excess: real)

  /** Exactly one status applies, selected by the sign of the balance. */
  function StatusOf(balance: real, savingsRatio: real): (s: Status)
    ensures s.WithinBudget? <==> balance > 0.0
    ensures s.BreakingEven? <==> balance == 0.0
    ensures s.Overspent? <==> balance < 0.0
    ensures s.WithinBudget? ==> s.savingsRatio == savingsRatio
    ensures s.Overspent? ==> s.excess == -balance && s.excess > 0.0
  {
    if balance > 0.0 then WithinBudget(savingsRatio)
    else if balance == 0.0 then BreakingEven
    else Overspent(-balance)
  }
}
