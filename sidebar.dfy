/**
 * The two figures the sidebar shows (components/sidebar.tsx): all-time spending and the
 * spending of the current month, both over the whole expense list. "Now" is a parameter:
 * `thisMonth` is `new Date().getMonth()` (0 to 11) and `thisYear` its full year.
 */
module Sidebar {
  import opened Seqs
  import opened Store
  import opened Totals

  function TotalExpenses(expenses: seq<Expense>): int {
    Sum(expenses)
  }

  function MonthlyExpenses(expenses: seq<Expense>, thisMonth: int, thisYear: int): int {
    MonthTotal(expenses, thisMonth, thisYear)
  }

  /** Both figures are 0 when there are no expenses. */
  lemma EmptyFigures(thisMonth: int, thisYear: int)
    ensures TotalExpenses([]) == 0 && MonthlyExpenses([], thisMonth, thisYear) == 0
  {
  }

  /** A new expense raises the total by its amount, whatever its date. */
  lemma TotalCountsEveryExpense(expenses: seq<Expense>, e: Expense)
    ensures TotalExpenses(expenses + [e]) == TotalExpenses(expenses) + e.amount
  {
    SumAppend(expenses, e);
  }

  /** A new expense raises the monthly figure by its amount exactly when it is dated this month. */
  lemma MonthlyCountsThisMonthOnly(expenses: seq<Expense>, e: Expense, thisMonth: int, thisYear: int)
    ensures MonthlyExpenses(expenses + [e], thisMonth, thisYear)
            == MonthlyExpenses(expenses, thisMonth, thisYear) + (if InMonth(e, thisMonth, thisYear) then e.amount else 0)
  {
    SumFilterAppend(expenses, e, (e: Expense) => InMonth(e, thisMonth, thisYear));
  }

  /** With no negative amount, this month's spending is at most the total. */
  lemma MonthlyAtMostTotal(expenses: seq<Expense>, thisMonth: int, thisYear: int)
    requires forall e :: e in expenses ==> e.amount >= 0
    ensures MonthlyExpenses(expenses, thisMonth, thisYear) <= TotalExpenses(expenses)
  {
    SumFilterAtMost(expenses, (e: Expense) => InMonth(e, thisMonth, thisYear));
  }
}
