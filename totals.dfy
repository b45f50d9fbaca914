/**
 * The fold every view applies to a list of expenses,
 * `expenses.reduce((sum, e) => sum + e.amount, 0)`, and the selections it is applied to:
 * one month of one year, one year, one category.
 */
module Totals {
  import opened Options
  import opened Seqs
  import opened Dates
  import opened Store

  /** The sum of the amounts, added from the left starting at 0. */
  function Sum(es: seq<Expense>): int {
    if es == [] then 0 else Sum(es[..|es| - 1]) + es[|es| - 1].amount
  }

  /** The date of `e` lies in month `month` (0 to 11) of `year`. */
  predicate InMonth(e: Expense, month: int, year: int) {
    ParseYearMonth(e.date) == Some(YearMonth(year, month))
  }

  predicate InYear(e: Expense, year: int) {
    ParseYearMonth(e.date).Some? && ParseYearMonth(e.date).value.year == year
  }

  /** The sum over the expenses dated in one month of one year. */
  function MonthTotal(es: seq<Expense>, month: int, year: int): int {
    Sum(Filter(es, (e: Expense) => InMonth(e, month, year)))
  }

  /** The sum over the expenses dated in one year. */
  function YearTotal(es: seq<Expense>, year: int): int {
    Sum(Filter(es, (e: Expense) => InYear(e, year)))
  }

  /** The sum over the expenses tagged with the category `id`; each counts in full. */
  function CategoryTotal(es: seq<Expense>, id: string): int {
    Sum(Filter(es, (e: Expense) => id in e.categoryIds))
  }

  /** The sum distributes over concatenation. */
  lemma {:induction false} SumConcat(a: seq<Expense>, b: seq<Expense>)
    ensures Sum(a + b) == Sum(a) + Sum(b)
  {
    if b == [] {
      assert a + b == a;
    } else {
      assert (a + b)[..|a + b| - 1] == a + b[..|b| - 1];
      SumConcat(a, b[..|b| - 1]);
    }
  }

  lemma SumSingle(e: Expense)
    ensures Sum([e]) == e.amount
  {
    assert [e][..0] == [];
  }

  /** Appending an expense adds its amount to the sum. */
  lemma SumAppend(es: seq<Expense>, e: Expense)
    ensures Sum(es + [e]) == Sum(es) + e.amount
  {
    SumConcat(es, [e]);
    SumSingle(e);
  }

  /** A selection's sum grows by an appended expense's amount exactly when it is selected. */
  lemma SumFilterAppend(es: seq<Expense>, e: Expense, p: Expense -> bool)
    ensures Sum(Filter(es + [e], p)) == Sum(Filter(es, p)) + (if p(e) then e.amount else 0)
  {
    FilterConcat(es, [e], p);
    assert Filter([e], p) == if p(e) then [e] else [];
    SumConcat(Filter(es, p), Filter([e], p));
    SumSingle(e);
  }

  /** The sum over a selection splits into the sums over two disjoint parts of it. */
  lemma {:induction false} SumFilterSplit(es: seq<Expense>, p: Expense -> bool, q: Expense -> bool, r: Expense -> bool)
    requires forall e :: p(e) == (q(e) || r(e))
    requires forall e :: !(q(e) && r(e))
    ensures Sum(Filter(es, p)) == Sum(Filter(es, q)) + Sum(Filter(es, r))
  {
    if es != [] {
      var es', e := es[..|es| - 1], es[|es| - 1];
      assert es == es' + [e];
      SumFilterSplit(es', p, q, r);
      SumFilterAppend(es', e, p);
      SumFilterAppend(es', e, q);
      SumFilterAppend(es', e, r);
    }
  }

  /** With no negative amount, the sum over a selection is at most the sum over the whole. */
  lemma {:induction false} SumFilterAtMost(es: seq<Expense>, p: Expense -> bool)
    requires forall e :: e in es ==> e.amount >= 0
    ensures Sum(Filter(es, p)) <= Sum(es)
  {
    if es != [] {
      var es', e := es[..|es| - 1], es[|es| - 1];
      assert es == es' + [e];
      SumFilterAtMost(es', p);
      SumFilterAppend(es', e, p);
    }
  }
}
