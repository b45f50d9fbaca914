/**
 * The dashboard (components/dashboard.tsx): a date-range filter with its validation message,
 * and the statistics computed from the filtered expenses. "Now" is a parameter: `thisMonth`
 * is `new Date().getMonth()` (0 to 11) and `thisYear` its full year.
 */
module Dashboard {
  import opened Options
  import opened Seqs
  import opened Strings
  import opened Dates
  import opened Store
  import opened Totals
  import Sidebar

  const FromDateError: string := "From Date must be before To Date"
  const ToDateError: string := "To Date must be after From Date"

  /** The three pieces of filter state; "" means an empty date input and no message. */
  class DateRangeFilter {
    var fromDate: string
    var toDate: string
    var dateError: string

    constructor ()
      ensures fromDate == "" && toDate == "" && dateError == ""
    {
      fromDate, toDate, dateError := "", "", "";
    }

    /** `handleFromDateChange`: flags a start after the (non-empty) end, clears the flag otherwise. */
    method HandleFromDateChange(value: string)
      modifies this
      ensures fromDate == value && toDate == old(toDate)
      ensures dateError == if toDate != "" && Less(toDate, value) then FromDateError else ""
    {
      fromDate := value;
      dateError := "";
      if toDate != "" && Less(toDate, value) {
        dateError := FromDateError;
      }
    }

    /** `handleToDateChange`: flags an end before the (non-empty) start, clears the flag otherwise. */
    method HandleToDateChange(value: string)
      modifies this
      ensures toDate == value && fromDate == old(fromDate)
      ensures dateError == if fromDate != "" && Less(value, fromDate) then ToDateError else ""
    {
      toDate := value;
      dateError := "";
      if fromDate != "" && Less(value, fromDate) {
        dateError := ToDateError;
      }
    }

    /** The "Clear Filter" button. */
    method ClearFilter()
      modifies this
      ensures fromDate == "" && toDate == "" && dateError == ""
    {
      fromDate, toDate, dateError := "", "", "";
    }
  }

  /** `(!fromDate || date >= fromDate) && (!toDate || date <= toDate)`, on strings. */
  predicate InRange(date: string, fromDate: string, toDate: string) {
    (fromDate == "" || LessEq(fromDate, date)) && (toDate == "" || LessEq(date, toDate))
  }

  /** `filteredExpenses`: the expenses dated within the range; the message does not matter. */
  function FilteredExpenses(expenses: seq<Expense>, fromDate: string, toDate: string): seq<Expense> {
    Filter(expenses, (e: Expense) => InRange(e.date, fromDate, toDate))
  }

  datatype CategoryDatum = CategoryDatum(name: string, value: int, color: string)

  /** One bar of the monthly chart; `month` is the month's index (its short name is locale text). */
  datatype MonthDatum = MonthDatum(month: int, amount: int)

  datatype Stats = Stats(
    totalExpenses: int,
    monthlyExpenses: int,
    categoryData: seq<CategoryDatum>,
    monthlyData: seq<MonthDatum>)

  function CategoryData(filtered: seq<Expense>, categories: seq<Category>): seq<CategoryDatum> {
    Map(categories, (c: Category) => CategoryDatum(c.name, CategoryTotal(filtered, c.id), c.color))
  }

  /** `Array.from({ length: 12 }, (_, i) => ...)`. */
  function MonthlyData(filtered: seq<Expense>, thisYear: int): seq<MonthDatum> {
    seq(12, i => MonthDatum(i, MonthTotal(filtered, i, thisYear)))
  }

  /** `stats`. */
  function ComputeStats(filtered: seq<Expense>, categories: seq<Category>, thisMonth: int, thisYear: int): Stats {
    Stats(
      Sum(filtered),
      MonthTotal(filtered, thisMonth, thisYear),
      CategoryData(filtered, categories),
      MonthlyData(filtered, thisYear))
  }

  // ---------------------------------------------------------------- the date filter

  /** An expense is kept exactly when it lies within both bounds. */
  lemma FilterKeeps(expenses: seq<Expense>, fromDate: string, toDate: string, e: Expense)
    ensures e in FilteredExpenses(expenses, fromDate, toDate) <==>
      e in expenses && (fromDate == "" || LessEq(fromDate, e.date)) && (toDate == "" || LessEq(e.date, toDate))
  {
  }

  /** The filter keeps the original order: it distributes over concatenation. */
  lemma FilterInOrder(a: seq<Expense>, b: seq<Expense>, fromDate: string, toDate: string)
    ensures FilteredExpenses(a + b, fromDate, toDate)
            == FilteredExpenses(a, fromDate, toDate) + FilteredExpenses(b, fromDate, toDate)
  {
    FilterConcat(a, b, (e: Expense) => InRange(e.date, fromDate, toDate));
  }

  /** With both bounds empty the filter keeps every expense. */
  lemma NoBoundsKeepsAll(expenses: seq<Expense>)
    ensures FilteredExpenses(expenses, "", "") == expenses
  {
    FilterKeepsAll(expenses, (e: Expense) => InRange(e.date, "", ""));
  }

  /** A start after the end, the case the message reports, lets nothing through. */
  lemma InvertedRangeKeepsNothing(expenses: seq<Expense>, fromDate: string, toDate: string)
    requires fromDate != "" && toDate != "" && Less(toDate, fromDate)
    ensures FilteredExpenses(expenses, fromDate, toDate) == []
  {
    forall e | e in expenses ensures !InRange(e.date, fromDate, toDate) {
      if LessEq(fromDate, e.date) && LessEq(e.date, toDate) {
        LessEqTransitive(fromDate, e.date, toDate);
        LessAsymmetric(toDate, fromDate);
      }
    }
    FilterDropsAll(expenses, (e: Expense) => InRange(e.date, fromDate, toDate));
  }

  // ---------------------------------------------------------------- the statistics

  /** The shape of the statistics: per category in order, twelve months, this month's bar. */
  lemma StatsShape(filtered: seq<Expense>, categories: seq<Category>, thisMonth: int, thisYear: int)
    requires 0 <= thisMonth < 12
    ensures var s := ComputeStats(filtered, categories, thisMonth, thisYear);
      && s.totalExpenses == Sum(filtered)
      && |s.categoryData| == |categories|
      && (forall i :: 0 <= i < |categories| ==>
            s.categoryData[i] == CategoryDatum(categories[i].name, CategoryTotal(filtered, categories[i].id), categories[i].color))
      && |s.monthlyData| == 12
      && (forall i :: 0 <= i < 12 ==> s.monthlyData[i] == MonthDatum(i, MonthTotal(filtered, i, thisYear)))
      && s.monthlyExpenses == s.monthlyData[thisMonth].amount
  {
  }

  /**
   * An expense adds its full amount to the value of every category it carries, so the values
   * of an expense with several categories add up to more than its amount.
   */
  lemma CategoryValueCountsInFull(filtered: seq<Expense>, e: Expense, id: string)
    ensures CategoryTotal(filtered + [e], id)
            == CategoryTotal(filtered, id) + (if id in e.categoryIds then e.amount else 0)
  {
    SumFilterAppend(filtered, e, (e: Expense) => id in e.categoryIds);
  }

  /** An expense dated in another year leaves every monthly bar as it was. */
  lemma OtherYearsContributeNothing(filtered: seq<Expense>, e: Expense, thisYear: int)
    requires !InYear(e, thisYear)
    ensures MonthlyData(filtered + [e], thisYear) == MonthlyData(filtered, thisYear)
  {
    forall i | 0 <= i < 12
      ensures MonthlyData(filtered + [e], thisYear)[i] == MonthlyData(filtered, thisYear)[i]
    {
      SumFilterAppend(filtered, e, (e: Expense) => InMonth(e, i, thisYear));
    }
  }

  /** The sum of the bars' amounts, from the last bar back. */
  function SumAmounts(data: seq<MonthDatum>): int {
    if data == [] then 0 else SumAmounts(data[..|data| - 1]) + data[|data| - 1].amount
  }

  /** Dated in `year`, in a month before `k`. */
  predicate InYearBefore(e: Expense, year: int, k: int) {
    ParseYearMonth(e.date).Some? && ParseYearMonth(e.date).value.year == year
    && ParseYearMonth(e.date).value.month < k
  }

  /** Dated before month `k` is dated before month `k - 1` or in month `k - 1`, never both. */
  lemma MonthBoundary(e: Expense, year: int, k: int)
    ensures InYearBefore(e, year, k) == (InYearBefore(e, year, k - 1) || InMonth(e, k - 1, year))
    ensures !(InYearBefore(e, year, k - 1) && InMonth(e, k - 1, year))
  {
    var d := ParseYearMonth(e.date);
    assert InMonth(e, k - 1, year) == (d.Some? && d.value.year == year && d.value.month == k - 1);
  }

  lemma {:induction false} MonthlyPrefixSum(filtered: seq<Expense>, thisYear: int, k: int)
    requires 0 <= k <= 12
    ensures SumAmounts(MonthlyData(filtered, thisYear)[..k])
            == Sum(Filter(filtered, (e: Expense) => InYearBefore(e, thisYear, k)))
  {
    var data := MonthlyData(filtered, thisYear);
    if k == 0 {
      FilterDropsAll(filtered, (e: Expense) => InYearBefore(e, thisYear, 0));
    } else {
      MonthlyPrefixSum(filtered, thisYear, k - 1);
      assert data[..k][..k - 1] == data[..k - 1];
      assert SumAmounts(data[..k]) == SumAmounts(data[..k - 1]) + MonthTotal(filtered, k - 1, thisYear);
      forall e: Expense
        ensures InYearBefore(e, thisYear, k) == (InYearBefore(e, thisYear, k - 1) || InMonth(e, k - 1, thisYear))
        ensures !(InYearBefore(e, thisYear, k - 1) && InMonth(e, k - 1, thisYear))
      {
        MonthBoundary(e, thisYear, k);
      }
      SumFilterSplit(filtered,
        (e: Expense) => InYearBefore(e, thisYear, k),
        (e: Expense) => InYearBefore(e, thisYear, k - 1),
        (e: Expense) => InMonth(e, k - 1, thisYear));
    }
  }

  /** The twelve bars add up to the spending of the current year; other years count nowhere. */
  lemma MonthlySumIsYearTotal(filtered: seq<Expense>, thisYear: int)
    ensures SumAmounts(MonthlyData(filtered, thisYear)) == YearTotal(filtered, thisYear)
  {
    MonthlyPrefixSum(filtered, thisYear, 12);
    assert MonthlyData(filtered, thisYear)[..12] == MonthlyData(filtered, thisYear);
    FilterCongruent(filtered,
      (e: Expense) => InYearBefore(e, thisYear, 12),
      (e: Expense) => InYear(e, thisYear));
  }

  /** Without a date filter the dashboard's two figures are the sidebar's. */
  lemma AgreesWithSidebar(expenses: seq<Expense>, categories: seq<Category>, thisMonth: int, thisYear: int)
    ensures var s := ComputeStats(FilteredExpenses(expenses, "", ""), categories, thisMonth, thisYear);
      s.totalExpenses == Sidebar.TotalExpenses(expenses)
      && s.monthlyExpenses == Sidebar.MonthlyExpenses(expenses, thisMonth, thisYear)
  {
    NoBoundsKeepsAll(expenses);
  }
}
