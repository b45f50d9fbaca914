/**
 * The categories page (components/categories-page.tsx): a statistic per category (number of
 * expenses, amount spent, average), narrowed by a search on the name and ranked by amount
 * spent, highest first.
 *
 * The page selects a category's expenses by the legacy single `categoryId`, which the store
 * never sets; `CategoryStatsAsWritten` models that, and `CategoryStats`, which selects by
 * `categoryIds` as every other view does, is the definition the rest of this module uses.
 */
module CategoriesPage {
  import opened Options
  import opened Seqs
  import opened Strings
  import opened Sorting
  import opened Store
  import opened Totals
  import Dashboard

  /** `{ ...category, expenseCount, totalSpent, avgExpense }`. */
  datatype CategoryStat = CategoryStat(
    id: string,
    name: string,
    color: string,
    icon: string,
    expenseCount: nat,
    totalSpent: int,
    avgExpense: real)

  /** The statistic of a category over the expenses selected for it. */
  function StatOf(c: Category, selected: seq<Expense>): CategoryStat {
    CategoryStat(c.id, c.name, c.color, c.icon, |selected|, Sum(selected),
      if |selected| > 0 then Sum(selected) as real / |selected| as real else 0.0)
  }

  /** `categoryStats` as the page computes it: expenses selected by `e.categoryId === category.id`. */
  function CategoryStatsAsWritten(categories: seq<Category>, expenses: seq<Expense>): seq<CategoryStat> {
    Map(categories, (c: Category) => StatOf(c, Filter(expenses, (e: Expense) => e.categoryId == Some(c.id))))
  }

  /** `categoryStats` selecting by `categoryIds`, as the dashboard and the table do. */
  function CategoryStats(categories: seq<Category>, expenses: seq<Expense>): seq<CategoryStat> {
    Map(categories, (c: Category) => StatOf(c, Filter(expenses, (e: Expense) => c.id in e.categoryIds)))
  }

  /** `filteredCategories`: the statistics whose name contains the search term, ignoring case. */
  function FilteredCategories(stats: seq<CategoryStat>, searchTerm: string): seq<CategoryStat> {
    Filter(stats, (s: CategoryStat) => Contains(ToLower(s.name), ToLower(searchTerm)))
  }

  /** `(a, b) => b.totalSpent - a.totalSpent`. */
  function BySpentDesc(a: CategoryStat, b: CategoryStat): int {
    b.totalSpent - a.totalSpent
  }

  /** `sortedCategories`: a stable sort of a copy of the filtered list. */
  function SortedCategories(filtered: seq<CategoryStat>): seq<CategoryStat> {
    Sort(filtered, BySpentDesc)
  }

  /** The page's ranked list, as written: statistics selected by the legacy `categoryId`. */
  function RankedCategories(categories: seq<Category>, expenses: seq<Expense>, searchTerm: string): seq<CategoryStat> {
    SortedCategories(FilteredCategories(CategoryStatsAsWritten(categories, expenses), searchTerm))
  }

  /** The ranked list over the statistics selected by `categoryIds`. */
  function RankedCategoriesCorrected(categories: seq<Category>, expenses: seq<Expense>, searchTerm: string): seq<CategoryStat> {
    SortedCategories(FilteredCategories(CategoryStats(categories, expenses), searchTerm))
  }

  // ---------------------------------------------------------------- the statistics

  /** One statistic per category in category order, keeping the category's own fields. */
  lemma CategoryStatsShape(categories: seq<Category>, expenses: seq<Expense>, i: int)
    requires 0 <= i < |categories|
    ensures |CategoryStats(categories, expenses)| == |categories|
    ensures var s, c := CategoryStats(categories, expenses)[i], categories[i];
      && s.id == c.id && s.name == c.name && s.color == c.color && s.icon == c.icon
      && s.expenseCount == |Filter(expenses, (e: Expense) => c.id in e.categoryIds)|
      && s.totalSpent == CategoryTotal(expenses, c.id)
  {
  }

  /**
   * As written: one statistic per category in category order, keeping the category's own
   * fields, counting and summing the expenses whose single `categoryId` is the category's id.
   */
  lemma CategoryStatsAsWrittenShape(categories: seq<Category>, expenses: seq<Expense>, i: int)
    requires 0 <= i < |categories|
    ensures |CategoryStatsAsWritten(categories, expenses)| == |categories|
    ensures var s, c := CategoryStatsAsWritten(categories, expenses)[i], categories[i];
      && s.id == c.id && s.name == c.name && s.color == c.color && s.icon == c.icon
      && s.expenseCount == |Filter(expenses, (e: Expense) => e.categoryId == Some(c.id))|
      && s.totalSpent == Sum(Filter(expenses, (e: Expense) => e.categoryId == Some(c.id)))
  {
  }

  /** The average is the amount spent per expense, and 0 for a category without expenses. */
  lemma AverageRule(c: Category, selected: seq<Expense>)
    ensures StatOf(c, selected).expenseCount == 0 ==> StatOf(c, selected).avgExpense == 0.0
    ensures StatOf(c, selected).expenseCount > 0 ==>
      StatOf(c, selected).avgExpense * (StatOf(c, selected).expenseCount as real)
      == StatOf(c, selected).totalSpent as real
  {
  }

  /** Each category's amount spent is the value the dashboard's chart shows for it. */
  lemma AgreesWithDashboard(categories: seq<Category>, expenses: seq<Expense>, i: int)
    requires 0 <= i < |categories|
    ensures CategoryStats(categories, expenses)[i].totalSpent
            == Dashboard.CategoryData(expenses, categories)[i].value
  {
  }

  /** As written, expenses without the legacy field count toward no category at all. */
  lemma AsWrittenIgnoresStoreExpenses(categories: seq<Category>, expenses: seq<Expense>, i: int)
    requires forall e :: e in expenses ==> e.categoryId.None?
    requires 0 <= i < |categories|
    ensures CategoryStatsAsWritten(categories, expenses)[i].expenseCount == 0
    ensures CategoryStatsAsWritten(categories, expenses)[i].totalSpent == 0
  {
    FilterDropsAll(expenses, (e: Expense) => e.categoryId == Some(categories[i].id));
  }

  /**
   * An expense the store adds for "Food" (id "1") leaves Food at 0 spent as written, and
   * counts in full once categories are read from `categoryIds`.
   */
  lemma AsWrittenMissesNewExpense()
    ensures var lunch := NewExpense(ExpenseInput("Lunch", 1250, "2024-03-05", ["1"], None, None), "1709600000000");
      && CategoryStatsAsWritten(DefaultCategories, [lunch])[0].totalSpent == 0
      && CategoryStats(DefaultCategories, [lunch])[0].totalSpent == 1250
      && CategoryStats(DefaultCategories, [lunch])[0].expenseCount == 1
  {
    var lunch := NewExpense(ExpenseInput("Lunch", 1250, "2024-03-05", ["1"], None, None), "1709600000000");
    assert DefaultCategories[0].id == "1";
    assert "1" in lunch.categoryIds;
    assert Filter([lunch], (e: Expense) => DefaultCategories[0].id in e.categoryIds) == [lunch];
    SumSingle(lunch);
    AsWrittenIgnoresStoreExpenses(DefaultCategories, [lunch], 0);
  }

  // ---------------------------------------------------------------- the search

  /** A statistic is kept exactly when its lowercased name contains the lowercased term. */
  lemma FilteredCategoriesKeeps(stats: seq<CategoryStat>, searchTerm: string, s: CategoryStat)
    ensures s in FilteredCategories(stats, searchTerm) <==>
      s in stats && exists i :: OccursAt(ToLower(s.name), ToLower(searchTerm), i)
  {
    assert s in FilteredCategories(stats, searchTerm) <==>
      s in stats && Contains(ToLower(s.name), ToLower(searchTerm));
    ContainsAt(ToLower(s.name), ToLower(searchTerm));
  }

  /** The search keeps category order: it distributes over concatenation. */
  lemma FilteredCategoriesInOrder(a: seq<CategoryStat>, b: seq<CategoryStat>, searchTerm: string)
    ensures FilteredCategories(a + b, searchTerm)
            == FilteredCategories(a, searchTerm) + FilteredCategories(b, searchTerm)
  {
    FilterConcat(a, b, (s: CategoryStat) => Contains(ToLower(s.name), ToLower(searchTerm)));
  }

  /** An empty term keeps every category. */
  lemma EmptySearchKeepsAll(stats: seq<CategoryStat>)
    ensures FilteredCategories(stats, "") == stats
  {
    forall s: CategoryStat ensures Contains(ToLower(s.name), ToLower("")) {
      ContainsEmpty(ToLower(s.name));
    }
    FilterKeepsAll(stats, (s: CategoryStat) => Contains(ToLower(s.name), ToLower("")));
  }

  // ---------------------------------------------------------------- the ranking

  lemma BySpentDescConsistent()
    ensures Consistent(BySpentDesc)
  {
  }

  /**
   * The ranking is a permutation of the filtered list, by amount spent from highest to
   * lowest, and categories with equal amounts keep their relative order.
   */
  lemma SortedCategoriesRanks(filtered: seq<CategoryStat>)
    ensures multiset(SortedCategories(filtered)) == multiset(filtered)
    ensures forall i, j :: 0 <= i < j < |SortedCategories(filtered)| ==>
      SortedCategories(filtered)[i].totalSpent >= SortedCategories(filtered)[j].totalSpent
    ensures forall z :: Ties(SortedCategories(filtered), z, BySpentDesc) == Ties(filtered, z, BySpentDesc)
  {
    BySpentDescConsistent();
    SortPermutes(filtered, BySpentDesc);
    SortSorted(filtered, BySpentDesc);
    var r := SortedCategories(filtered);
    forall i, j | 0 <= i < j < |r| ensures r[i].totalSpent >= r[j].totalSpent {
      assert BySpentDesc(r[i], r[j]) <= 0;
    }
    forall z ensures Ties(r, z, BySpentDesc) == Ties(filtered, z, BySpentDesc) {
      SortStable(filtered, z, BySpentDesc);
    }
  }

  /**
   * Of two statistics that pass the search, the one with more spent is ranked first. This
   * holds for any list of statistics, so for the page's list and the corrected one alike.
   */
  lemma RankedBefore(stats: seq<CategoryStat>, searchTerm: string, i: int, j: int)
    requires 0 <= i < |SortedCategories(FilteredCategories(stats, searchTerm))|
    requires 0 <= j < |SortedCategories(FilteredCategories(stats, searchTerm))|
    requires SortedCategories(FilteredCategories(stats, searchTerm))[i].totalSpent
             > SortedCategories(FilteredCategories(stats, searchTerm))[j].totalSpent
    ensures i < j
  {
    SortedCategoriesRanks(FilteredCategories(stats, searchTerm));
  }

  /** A list in which every element ties with every other is left as it is by the ranking. */
  lemma AllTiedKeepsOrder(filtered: seq<CategoryStat>)
    requires forall k :: 0 <= k < |filtered| ==> filtered[k].totalSpent == 0
    ensures SortedCategories(filtered) == filtered
  {
    BySpentDescConsistent();
    SortPermutes(filtered, BySpentDesc);
    SortSorted(filtered, BySpentDesc);
    forall z ensures Ties(filtered, z, BySpentDesc) == Ties(SortedCategories(filtered), z, BySpentDesc) {
      SortStable(filtered, z, BySpentDesc);
    }
    StableSortIsUnique(filtered, SortedCategories(filtered), BySpentDesc);
  }

  /**
   * As written, when no expense carries the legacy field, every category shows 0 spent and
   * the ranking is the category order, whatever was spent.
   */
  lemma AsWrittenRanksInCategoryOrder(categories: seq<Category>, expenses: seq<Expense>, searchTerm: string)
    requires forall e :: e in expenses ==> e.categoryId.None?
    ensures RankedCategories(categories, expenses, searchTerm)
            == FilteredCategories(CategoryStatsAsWritten(categories, expenses), searchTerm)
  {
    var stats := CategoryStatsAsWritten(categories, expenses);
    var filtered := FilteredCategories(stats, searchTerm);
    forall k | 0 <= k < |filtered| ensures filtered[k].totalSpent == 0 {
      assert filtered[k] in stats;
      var i :| 0 <= i < |stats| && stats[i] == filtered[k];
      AsWrittenIgnoresStoreExpenses(categories, expenses, i);
    }
    AllTiedKeepsOrder(filtered);
  }
}
