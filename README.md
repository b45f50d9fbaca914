# Expense tracker: store and view derivations

This project models the core of a single-user expense tracker.

- The **store** holds two lists, the expenses and the categories, and six actions replace them: add, update and delete an expense, and add, update and delete a category. Deleting a category also strips its id from every expense.
- The **views** derive everything else from a snapshot of the store, as pure functions:
  - **dashboard:** a date-range filter with its validation message, and statistics over the filtered expenses (total, this month, per category, twelve monthly bars);
  - **sidebar:** two running totals;
  - **expenses page:** a search, a date filter, a stable sort and a CSV export;
  - **expense form:** toggle categories, remove images, prefill for an edit, a submit guard and the store call;
  - **categories page:** per-category statistics with a search and a ranking;
  - **expense table:** category names and icons looked up by id.

The model follows the source's layout:

- one Dafny module per source file: `Store`, `Dashboard`, `Sidebar`, `ExpensesPage`, `ExpenseForm`, `CategoriesPage`, `ExpenseTable`;
- shared modules for the JavaScript built-ins the code relies on: `Seqs`, `Strings`, `Sorting`, `Dates`, `Totals`, `Options`.

What changes in place is a class:

- the store's two lists (`Store.ExpenseStore`);
- the dashboard's filter state (`Dashboard.DateRangeFilter`);
- the form's state (`ExpenseForm.FormState`).

Everything the views compute is a function.

Conventions:

- Amounts are integers (minor units).
- Ids come in as a `freshId` parameter (the source uses the `Date.now()` text).
- "Now" (month 0 to 11, full year) is a parameter.
- Number parsing and number-to-text conversion are function parameters.
- Dates are `YYYY-MM-DD` strings, compared as JavaScript compares strings. Their month and year are read from the text.
- The `categoryId` field that two views read is modelled as an optional legacy field. The store never sets it.

Two behaviours of the code are worth knowing:

- **Inverted date range.** An inverted date range is not rejected. The dashboard shows a message and keeps filtering, so nothing is kept (`Dashboard.InvertedRangeKeepsNothing`).
- **Descending sort.** A descending sort is not the reverse of an ascending one. The code sorts stably with a negated comparator, so entries that tie keep their order in both directions (`ExpensesPage.TiesIgnoreDirection`).

## Model

| member | source | states |
|---|---|---|
| `Store.NewExpense` | lib/store.ts:47 | defines the appended expense: the input's fields and the fresh id, no legacy field; `Store.ExpenseStore.AddExpense` states its use |
| `Store.NewCategory` | lib/store.ts:59 | defines the appended category: the input's fields and the fresh id |
| `Store.Merge` | lib/store.ts:51 | defines the spread `{ ...e, ...patch }`; `Store.MergeFields` and `Store.MergeLaws` state its meaning |
| `Store.MergeCategory` | lib/store.ts:63 | defines the spread `{ ...c, ...patch }` on a category; `Store.UpdateCategoriesAt` states its use |
| `Store.UpdateExpenses` | lib/store.ts:49-52 | defines the new expense list of an update; `Store.UpdateExpensesAt` and `Store.UpdateAbsentIsNoOp` state its meaning |
| `Store.DeleteExpenses` | lib/store.ts:53-56 | defines the new expense list of a delete; `Store.DeleteExpensesKeeps` and `Store.DeleteExpensesIdempotent` state its meaning |
| `Store.UpdateCategories` | lib/store.ts:61-64 | defines the new category list of an update; `Store.UpdateCategoriesAt` states its meaning |
| `Store.DeleteCategories` | lib/store.ts:67 | defines the new category list of a category delete; `Store.DeleteCategoryRemovesReferences` states its meaning |
| `Store.Untag` | lib/store.ts:68-71 | defines one expense with the id filtered out of its `categoryIds` |
| `Store.UntagAll` | lib/store.ts:68-71 | defines the new expense list of a category delete; `Store.UntagAllChangesOnlyTags` states its meaning |
| `Store.ExpenseStore.constructor` | lib/store.ts:32-44 | a new store has no expenses and exactly the five default categories, ids "1" to "5" in that order |
| `Store.ExpenseStore.AddExpense` | lib/store.ts:45-48 | one expense with the supplied fields and the fresh id is appended at the end; earlier expenses and all categories are unchanged |
| `Store.ExpenseStore.UpdateExpense` | lib/store.ts:49-52 | the expense list becomes the merge of the patch into the matching expenses; categories are unchanged |
| `Store.ExpenseStore.DeleteExpense` | lib/store.ts:53-56 | the expense list keeps exactly those with another id; categories are unchanged |
| `Store.ExpenseStore.AddCategory` | lib/store.ts:57-60 | one category with the fresh id is appended; expenses are unchanged |
| `Store.ExpenseStore.UpdateCategory` | lib/store.ts:61-64 | the patch is merged into the matching categories; expenses are unchanged |
| `Store.ExpenseStore.DeleteCategory` | lib/store.ts:65-72 | in one step, no category with the id is left and no expense refers to it; references that were valid stay valid |
| `Store.MergeFields` | lib/store.ts:51 | each supplied field overwrites, the id included; each field not supplied keeps its old value; the legacy field is kept |
| `Store.MergeLaws` | lib/store.ts:51 | an empty patch changes nothing; applying a patch twice is applying it once; two patches in turn are their combination |
| `Store.UpdateExpensesAt` | lib/store.ts:49-52 | update keeps the length and the order; position by position, matching expenses are merged and others untouched |
| `Store.UpdateAbsentIsNoOp` | lib/store.ts:49-52 | an update with an id no expense has leaves the list as it was |
| `Store.UpdateKeepsIds` | lib/store.ts:51 | a patch without an id keeps the list of ids |
| `Store.DeleteExpensesKeeps` | lib/store.ts:53-56 | an expense survives the delete exactly when its id differs; the id is gone afterwards |
| `Store.DeleteExpensesInOrder` | lib/store.ts:55 | the survivors keep their order (the delete distributes over concatenation) |
| `Store.DeleteExpensesIdempotent` | lib/store.ts:53-56 | deleting twice is deleting once; deleting an absent id is a no-op |
| `Store.AddKeepsIdsUnique` | lib/store.ts:45-48 | unique ids stay unique when the new id is fresh |
| `Store.DeleteKeepsIdsUnique` | lib/store.ts:53-56 | unique ids stay unique after a delete |
| `Store.AddCategoryKeepsIdsUnique` | lib/store.ts:57-60 | unique category ids stay unique when the new id is fresh |
| `Store.DeleteCategoryKeepsIdsUnique` | lib/store.ts:65-67 | unique category ids stay unique after a category delete |
| `Store.UpdateCategoryKeepsIds` | lib/store.ts:61-64 | a category patch without an id keeps the list of category ids |
| `Store.UpdateCategoriesAt` | lib/store.ts:61-64 | update keeps length and order and merges into matching categories only |
| `Store.DeleteCategoryRemovesReferences` | lib/store.ts:65-72 | after the delete there is no category with the id and no expense carries it |
| `Store.UntagAllChangesOnlyTags` | lib/store.ts:68-71 | count and order of expenses are kept; only `categoryIds` changes, losing exactly that id and keeping the rest in order |
| `Store.DeleteCategoryKeepsReferencesValid` | lib/store.ts:65-72 | if every reference named an existing category before, it still does after |
| `Dashboard.DateRangeFilter.constructor` | components/dashboard.tsx:25-27 | both bounds and the message start empty |
| `Dashboard.DateRangeFilter.HandleFromDateChange` | components/dashboard.tsx:29-35 | the start is set; the message is set exactly when an end is set and the start is after it, and is cleared otherwise |
| `Dashboard.DateRangeFilter.HandleToDateChange` | components/dashboard.tsx:37-43 | the end is set; the message is set exactly when a start is set and the end is before it, and is cleared otherwise |
| `Dashboard.DateRangeFilter.ClearFilter` | components/dashboard.tsx:93-97 | both bounds and the message return to empty |
| `Dashboard.InRange` | components/dashboard.tsx:47-50 | defines the two inclusive bounds, an empty bound letting everything through |
| `Dashboard.FilteredExpenses` | components/dashboard.tsx:45-52 | defines the date filter; `Dashboard.FilterKeeps` and `Dashboard.FilterInOrder` state its meaning |
| `Dashboard.CategoryData` | components/dashboard.tsx:65-70 | defines one chart entry per category; `Dashboard.StatsShape` states its shape |
| `Dashboard.MonthlyData` | components/dashboard.tsx:72-81 | defines the twelve monthly bars; `Dashboard.MonthlySumIsYearTotal` states their sum |
| `Dashboard.ComputeStats` | components/dashboard.tsx:54-83 | defines the four statistics; `Dashboard.StatsShape` states what each holds |
| `Dashboard.FilterKeeps` | components/dashboard.tsx:45-52 | an expense is kept exactly when each bound is empty or respected, inclusively |
| `Dashboard.FilterInOrder` | components/dashboard.tsx:45-52 | the filter keeps the store's order |
| `Dashboard.NoBoundsKeepsAll` | components/dashboard.tsx:48-49 | with both bounds empty every expense is kept |
| `Dashboard.InvertedRangeKeepsNothing` | components/dashboard.tsx:45-52 | a start after the end, the case the message reports, keeps nothing |
| `Dashboard.StatsShape` | components/dashboard.tsx:54-83 | total is the sum of the filtered list; one category entry per category in order; twelve monthly entries; this month's figure is its bar |
| `Dashboard.CategoryValueCountsInFull` | components/dashboard.tsx:65-70 | an expense adds its full amount to every category it carries |
| `Dashboard.OtherYearsContributeNothing` | components/dashboard.tsx:72-81 | an expense dated in another year changes no monthly bar |
| `Dashboard.MonthlySumIsYearTotal` | components/dashboard.tsx:72-81 | the twelve bars add up to the spending of the current year |
| `Dashboard.AgreesWithSidebar` | components/dashboard.tsx:55-63 | without a date filter the dashboard's total and monthly figures are the sidebar's |
| `Sidebar.TotalExpenses` | components/sidebar.tsx:17 | defines the all-time total; `Sidebar.TotalCountsEveryExpense` states its meaning |
| `Sidebar.MonthlyExpenses` | components/sidebar.tsx:18-25 | defines this month's total; `Sidebar.MonthlyCountsThisMonthOnly` states its meaning |
| `Sidebar.EmptyFigures` | components/sidebar.tsx:17-25 | both figures are 0 without expenses |
| `Sidebar.TotalCountsEveryExpense` | components/sidebar.tsx:17 | a new expense raises the total by its amount, whatever its date |
| `Sidebar.MonthlyCountsThisMonthOnly` | components/sidebar.tsx:18-25 | a new expense raises the monthly figure by its amount exactly when dated in this month of this year |
| `Sidebar.MonthlyAtMostTotal` | components/sidebar.tsx:17-25 | with no negative amounts, this month's spending is at most the total |
| `ExpensesPage.MatchesSearch` | components/expenses-page.tsx:23-27 | defines the case-insensitive search on the title or a present description |
| `ExpensesPage.Selection` | components/expenses-page.tsx:23-34 | defines the searched and date-filtered expenses in store order, the reference the sorted list is proved against |
| `ExpensesPage.KeyCompare` | components/expenses-page.tsx:37-44 | defines the ascending comparison of each key; `ExpensesPage.KeyCompareMeaning` states its meaning |
| `ExpensesPage.Comparator` | components/expenses-page.tsx:36-46 | defines the comparator, negated for `desc`; `ExpensesPage.ComparatorConsistent` states it is consistent |
| `ExpensesPage.Quote` | components/expenses-page.tsx:55 | defines a cell wrapped in double quotes, inner quotes untouched |
| `ExpensesPage.CsvLine` | components/expenses-page.tsx:55 | defines a line: quoted cells joined by commas; `ExpensesPage.LineCells` states its meaning |
| `ExpensesPage.CategoryCell` | components/expenses-page.tsx:53 | defines the Category cell from the legacy field, "undefined" when absent |
| `ExpensesPage.Row` | components/expenses-page.tsx:53 | defines the five cells of an expense |
| `ExpensesPage.Csv` | components/expenses-page.tsx:52-55 | defines the exported text; `ExpensesPage.CsvLines` states its lines |
| `ExpensesPage.FilteredExpenses` | components/expenses-page.tsx:22-49 | the list holds exactly the expenses matching the search and both bounds, as a permutation of them; it is ordered by the key, ascending or descending, and ties keep their store order |
| `ExpensesPage.StartStep` | components/expenses-page.tsx:23-31 | the search followed by the start filter keeps what both conditions together keep |
| `ExpensesPage.EndStep` | components/expenses-page.tsx:32-34 | the end filter completes the selection |
| `ExpensesPage.SortMeetsOrder` | components/expenses-page.tsx:36-46 | the stable sort by any of the six comparators is a permutation, in key order, with ties in their original order |
| `ExpensesPage.KeyCompareMeaning` | components/expenses-page.tsx:36-44 | the date and title comparisons order strings, the amount comparison orders numbers, and each is antisymmetric |
| `ExpensesPage.ComparatorConsistent` | components/expenses-page.tsx:36-46 | each comparator, negated or not, is a consistent three-way comparison |
| `ExpensesPage.TiesIgnoreDirection` | components/expenses-page.tsx:45 | negating a tie leaves a tie, so both directions keep tied expenses in the same order |
| `ExpensesPage.FilteredExpensesUnique` | components/expenses-page.tsx:36-46 | any sorted, tie-preserving permutation of the selection is the page's list |
| `ExpensesPage.EmptyCriteriaKeepAll` | components/expenses-page.tsx:23-34 | an empty term and no bounds keep every expense in order |
| `ExpensesPage.BoundsInclusive` | components/expenses-page.tsx:29-34 | an expense dated exactly on both bounds is kept |
| `ExpensesPage.LineCells` | components/expenses-page.tsx:55 | a line splits at its commas into the quoted cells, provided no cell holds a comma |
| `ExpensesPage.CsvLines` | components/expenses-page.tsx:52-55 | the export has n+1 lines: the header line, then each listed expense's line in order, provided no cell holds a newline |
| `ExpensesPage.CategoryCellIgnoresIds` | components/expenses-page.tsx:53 | the Category cell ignores `categoryIds`; a store-created expense exports "undefined" there |
| `ExpenseForm.InitialForm` | components/expense-form.tsx:26-33 | defines the empty form with today's date |
| `ExpenseForm.Toggle` | components/expense-form.tsx:79-86 | defines the toggle; `ExpenseForm.ToggleMembership`, `ExpenseForm.ToggleTwiceRestores` and `ExpenseForm.ToggleKeepsDistinct` state its meaning |
| `ExpenseForm.RemoveAt` | components/expense-form.tsx:74 | defines the filter by index; `ExpenseForm.RemoveAtMeaning` states its meaning |
| `ExpenseForm.IsEditing` | components/expense-form.tsx:37 | defines the truthiness of `editingId`: present and non-empty |
| `ExpenseForm.PrefillFrom` | components/expense-form.tsx:40-47 | defines the copied form values, with "" and [] for a missing description and images |
| `ExpenseForm.CanSubmit` | components/expense-form.tsx:90 | defines the submit guard: a title, an amount text and at least one category |
| `ExpenseForm.Fields` | components/expense-form.tsx:102-109 | defines the fields passed to the store; `ExpenseForm.SubmittedFieldsAreTheForm` states their use |
| `ExpenseForm.AsPatch` | components/expense-form.tsx:93-100 | defines the same fields as an update patch that supplies every field but the id |
| `ExpenseForm.EditTarget` | components/expense-form.tsx:37-39 | an edit targets the first expense with that id when the id is non-empty and found, and nothing otherwise |
| `ExpenseForm.FormState.constructor` | components/expense-form.tsx:26-34 | a new form is empty but for today's date, with no previews |
| `ExpenseForm.FormState.Prefill` | components/expense-form.tsx:36-51 | the found expense is copied in, missing description and images becoming empty; an unknown or empty id leaves the form as it was |
| `ExpenseForm.FormState.ToggleCategory` | components/expense-form.tsx:79-86 | only the category list changes, by the toggle |
| `ExpenseForm.FormState.RemoveImage` | components/expense-form.tsx:71-77 | the image at the index leaves both the form and the previews |
| `ExpenseForm.FormState.HandleSubmit` | components/expense-form.tsx:88-112 | with an empty title, an empty amount or no category nothing happens; otherwise exactly one store action runs with the form's fields, an update when editing and an addition otherwise |
| `ExpenseForm.ToggleMembership` | components/expense-form.tsx:79-86 | an id is in the toggled list exactly when it was in the list or is the toggled id, but not both |
| `ExpenseForm.ToggleTwiceRestores` | components/expense-form.tsx:79-86 | toggling an absent id twice gives the list back |
| `ExpenseForm.ToggleKeepsDistinct` | components/expense-form.tsx:79-86 | toggling keeps a duplicate-free list duplicate-free |
| `ExpenseForm.RemoveAtMeaning` | components/expense-form.tsx:74 | an index in range removes exactly that element, keeping the others in order; one out of range changes nothing |
| `ExpenseForm.EditResaveNormalises` | components/expense-form.tsx:36-100 | saving an edit unchanged rewrites the expense as it was, except a missing description or missing images become empty |
| `ExpenseForm.SubmittedFieldsAreTheForm` | components/expense-form.tsx:102-109 | the added expense carries every field of the form and the fresh id |
| `CategoriesPage.StatOf` | components/categories-page.tsx:18-26 | defines one statistic: the category's fields, count, sum and average; `CategoriesPage.AverageRule` states the average |
| `CategoriesPage.CategoryStatsAsWritten` | components/categories-page.tsx:17-28 | defines the statistics as written, selecting by the legacy `categoryId`; `CategoriesPage.CategoryStatsAsWrittenShape` states their shape |
| `CategoriesPage.CategoryStats` | components/categories-page.tsx:17-28 | defines the corrected statistics, selecting by `categoryIds`; `CategoriesPage.CategoryStatsShape` states their shape |
| `CategoriesPage.FilteredCategories` | components/categories-page.tsx:30-32 | defines the name search; `CategoriesPage.FilteredCategoriesKeeps` states its meaning |
| `CategoriesPage.BySpentDesc` | components/categories-page.tsx:34 | defines the ranking comparator, highest spent first |
| `CategoriesPage.SortedCategories` | components/categories-page.tsx:34 | defines the stable sort of a copy; `CategoriesPage.SortedCategoriesRanks` states its meaning |
| `CategoriesPage.RankedCategories` | components/categories-page.tsx:17-34 | defines the page's ranked list as written, over the `categoryId` statistics |
| `CategoriesPage.RankedCategoriesCorrected` | components/categories-page.tsx:17-34 | defines the ranked list over the corrected statistics |
| `CategoriesPage.CategoryStatsAsWrittenShape` | components/categories-page.tsx:17-28 | as written, one statistic per category in order, keeping its fields, counting and summing the expenses whose single `categoryId` is its id |
| `CategoriesPage.CategoryStatsShape` | components/categories-page.tsx:17-28 | one statistic per category in order, keeping its fields, counting and summing its expenses |
| `CategoriesPage.AverageRule` | components/categories-page.tsx:25 | the average times the count is the amount spent; the average is 0 without expenses |
| `CategoriesPage.AgreesWithDashboard` | components/categories-page.tsx:19-20 | a category's amount spent is the dashboard's value for it |
| `CategoriesPage.AsWrittenIgnoresStoreExpenses` | components/categories-page.tsx:19 | as written, expenses without the legacy field count toward no category |
| `CategoriesPage.AsWrittenMissesNewExpense` | components/categories-page.tsx:19-20 | an expense added for Food shows 0 spent as written and its amount once read from `categoryIds` |
| `CategoriesPage.FilteredCategoriesKeeps` | components/categories-page.tsx:30-32 | a category is kept exactly when its lowercased name contains the lowercased term somewhere |
| `CategoriesPage.FilteredCategoriesInOrder` | components/categories-page.tsx:30-32 | the search keeps category order |
| `CategoriesPage.EmptySearchKeepsAll` | components/categories-page.tsx:31 | an empty term keeps every category |
| `CategoriesPage.BySpentDescConsistent` | components/categories-page.tsx:34 | the ranking comparator is a consistent three-way comparison |
| `CategoriesPage.SortedCategoriesRanks` | components/categories-page.tsx:34 | the ranking is a permutation of the filtered list, by amount spent highest first, equal amounts in their order |
| `CategoriesPage.RankedBefore` | components/categories-page.tsx:30-34 | for any list of statistics, as written or corrected, of two that pass the search the one with more spent is ranked first |
| `CategoriesPage.AllTiedKeepsOrder` | components/categories-page.tsx:34 | the stable ranking leaves a list whose amounts all tie in its order |
| `CategoriesPage.AsWrittenRanksInCategoryOrder` | components/categories-page.tsx:17-34 | as written, when no expense carries the legacy field, the ranking is the searched categories in their store order, whatever was spent |
| `ExpenseTable.NameOf` | components/expense-table.tsx:21 | the name of the first category with the id, or nothing exactly when no category has it |
| `ExpenseTable.IconOf` | components/expense-table.tsx:27 | the icon of the first category with the id, or nothing exactly when no category has it |
| `ExpenseTable.Present` | components/expense-table.tsx:22 | the values kept are exactly the found, non-empty ones, never more than there were |
| `ExpenseTable.NameList` | components/expense-table.tsx:20-22 | defines the names found for the ids, empty ones dropped |
| `ExpenseTable.CategoryNames` | components/expense-table.tsx:19-24 | defines the names joined with ", "; `ExpenseTable.CategoryNamesConcat` states the joining |
| `ExpenseTable.CategoryIcons` | components/expense-table.tsx:26-28 | defines the icons found for the ids; `ExpenseTable.IconsConcat` and `ExpenseTable.IconsAtMostIds` state its meaning |
| `ExpenseTable.NameListConcat` | components/expense-table.tsx:19-24 | the names follow the order of the ids |
| `ExpenseTable.IconsConcat` | components/expense-table.tsx:26-28 | the icons follow the order of the ids |
| `ExpenseTable.SingleIdName` | components/expense-table.tsx:19-24 | one id shows its category's name, or nothing for an unknown id or an empty name |
| `ExpenseTable.SingleIdIcon` | components/expense-table.tsx:26-28 | one id shows its category's icon, or nothing for an unknown id or an empty icon |
| `ExpenseTable.NamesAreKnown` | components/expense-table.tsx:19-24 | every name shown is non-empty and belongs to one of the ids |
| `ExpenseTable.IconsAtMostIds` | components/expense-table.tsx:26-28 | there are never more icons than ids |
| `ExpenseTable.RepeatedIdRepeats` | components/expense-table.tsx:20-27 | a repeated id shows its name and icon twice |
| `ExpenseTable.CategoryNamesConcat` | components/expense-table.tsx:23 | the names of two id lists are joined with one ", " between them |
| `Strings.Compare` | components/expenses-page.tsx:43 | the title comparison is zero, negative or positive exactly when the strings are equal, in order, or in reverse order |
| `Strings.ContainsAt` | components/expenses-page.tsx:25-26 | `includes` holds exactly when the term occurs at some position |
| `Strings.ToLower` | components/expenses-page.tsx:25-26 | lowercasing keeps the length and maps each character |
| `Strings.SplitJoin` | components/expenses-page.tsx:55 | lines joined by a separator none of them holds split back into the same lines |
| `Sorting.SortPermutes` | components/expenses-page.tsx:36 | the sort rearranges without adding or losing elements |
| `Sorting.SortSorted` | components/expenses-page.tsx:36 | with a consistent comparator the result is ordered |
| `Sorting.SortStable` | components/expenses-page.tsx:36 | the elements tied with any given one keep their relative order |
| `Sorting.StableSortIsUnique` | components/expenses-page.tsx:36 | two ordered, tie-preserving permutations of the same elements are equal |
| `Dates.ParseYearMonth` | components/dashboard.tsx:60-61 | a month read from a date is 0 to 11, and only a `YYYY-MM-DD` text has one |
| `Dates.ParseFormat` | components/dashboard.tsx:76-77 | the month and year read from a formatted date are the ones it was formatted from |
| `Totals.Sum` | components/sidebar.tsx:17 | defines the `reduce` of amounts from 0; `Totals.SumConcat` states it distributes over concatenation |
| `Totals.MonthTotal` | components/dashboard.tsx:58-63 | defines the sum over one month of one year |
| `Totals.CategoryTotal` | components/dashboard.tsx:66-68 | defines the sum over the expenses tagged with a category |
| `Totals.SumConcat` | components/dashboard.tsx:55 | the sum over two lists joined is the sum of their sums |
| `Totals.SumFilterSplit` | components/dashboard.tsx:72-81 | the sum over a selection is the sum of the sums over two disjoint parts of it |
| `Totals.SumFilterAtMost` | components/sidebar.tsx:20-25 | with no negative amounts, the sum over a selection is at most the sum over all |

## Left out

- Persistence: the `persist` middleware and its browser-storage serialisation (lib/store.ts:40-41, 74-76) are a foreign library over browser I/O.
- Reactivity and markup: hooks, memoisation, re-rendering, charts, dialogs, the header, the page switch and the sidebar's open state are presentation only.
- Image upload: reading files with `FileReader` (components/expense-form.tsx:53-69) is asynchronous browser I/O. The form's `onClose` callback is a UI notification.
- CSV download: the Blob, the object URL, the anchor click and the file name (components/expenses-page.tsx:57-63) are file I/O. The CSV text itself is modelled.
- Category form: components/category-form.tsx is not part of this model. Its store calls are the modelled `AddCategory` and `UpdateCategory`.
- Clock: `Date.now()` ids and `new Date()` are parameters.
- Time zone: the shift between parsing a date as UTC and reading its month in local time is not modelled; month and year are read from the date text.
- Number text and month labels: `parseFloat`, `toString`, `toFixed`, the locale month labels and the "Avg. Daily" figure are number formatting and calendar arithmetic.
- Avg. Daily: neither the days-in-month division nor any floating-point rounding is modelled. Amounts are integers and the category average is an exact rational.
- ExpensesPage.KeyCompare: `localeCompare` on titles is modelled as plain lexicographic order, because locale collation is implementation-defined.
- ExpensesPage.MatchesSearch: `toLowerCase` is modelled on ASCII letters only, because Unicode case mapping is outside the model.
- Strings.Less: characters are compared as Unicode scalar values, not JavaScript's UTF-16 code units; the orders differ only for characters beyond the Basic Multilingual Plane.
- ExpensesPage.FilteredExpenses: `new Date(a) >= new Date(b)` and the `getTime()` difference are modelled as string comparison of the date texts. This agrees for valid `YYYY-MM-DD` dates; other texts, which make an invalid `Date`, are not modelled.
- Dates.ParseYearMonth: days 1 to 31 are accepted in every month, because the calendar validity of a day is not modelled.
- ExpenseForm.FormState.HandleSubmit: `parseFloat` is a total `parseAmount` function, so the NaN of a non-numeric amount text is not modelled.
- Store.Merge: a patch field given explicitly as `undefined` is not modelled; a patch lists only the fields it supplies.
- ExpenseForm.PrefillFrom: the `categoryIds || []` fallback (components/expense-form.tsx:44) cannot fire, because `categoryIds` is a required field; the field is copied as it is.
- ExpensesPage.FilteredExpenses: `filtered.sort` sorts a freshly filtered array in place; the model gives `filtered` a sorted copy instead. No other reference to that array exists, so nothing observes the difference.
- CategoriesPage.SortedCategories: the source sorts a copy so that the filtered list is left unchanged. On values that holds trivially.

## Findings

| source | as written | input that shows it | evidently intended | confidence | as-written member | corrected member |
|---|---|---|---|---|---|---|
| components/categories-page.tsx:19 | a category's expenses are those whose single `categoryId` equals its id, a field the store no longer sets | the default categories and one expense added through `addExpense` with `categoryIds` ["1"] and amount 1250: Food shows 0 expenses and 0 spent | select expenses whose `categoryIds` includes the id, as the dashboard does at components/dashboard.tsx:67 | high, not executed | `CategoriesPage.CategoryStatsAsWritten` (exhibited by `CategoriesPage.AsWrittenMissesNewExpense` and `CategoriesPage.AsWrittenIgnoresStoreExpenses`) | `CategoriesPage.CategoryStats` (proved by `CategoriesPage.CategoryStatsShape` and `CategoriesPage.AgreesWithDashboard`) |
