/**
 * The expense store (lib/store.ts): the lists of expenses and categories and the six actions
 * that replace them. Every action computes its new list from the old one with `map`,
 * `filter` or a spread; the helper functions below are those computations, and the lemmas
 * after them state what each action guarantees.
 */
module Store {
  import opened Options
  import opened Seqs

  datatype Category = Category(id: string, name: string, color: string, icon: string)

  /**
   * An expense. `categoryId` is a single-category field that the current type no longer
   * declares and that nothing in the code sets; two views still read it.
   */
  datatype Expense = Expense(
    id: string,
    title: string,
    amount: int,
    date: string,
    categoryIds: seq<string>,
    description: Option<string>,
    images: Option<seq<string>>,
    categoryId: Option<string>)

  /** The argument of `addExpense`: an expense without its id. */
  datatype ExpenseInput = ExpenseInput(
    title: string,
    amount: int,
    date: string,
    categoryIds: seq<string>,
    description: Option<string>,
    images: Option<seq<string>>)

  /** The argument of `updateExpense`: any subset of the declared fields, the id included. */
  datatype ExpensePatch = ExpensePatch(
    id: Option<string>,
    title: Option<string>,
    amount: Option<int>,
    date: Option<string>,
    categoryIds: Option<seq<string>>,
    description: Option<string>,
    images: Option<seq<string>>)

  /** The argument of `addCategory`: a category without its id. */
  datatype CategoryInput = CategoryInput(name: string, color: string, icon: string)

  /** The argument of `updateCategory`. */
  datatype CategoryPatch = CategoryPatch(
    id: Option<string>, name: Option<string>, color: Option<string>, icon: Option<string>)

  const DefaultCategories: seq<Category> := [
    Category("1", "Food", "#FF6B6B", "\U{1F354}"),
    Category("2", "Transport", "#4ECDC4", "\U{1F697}"),
    Category("3", "Entertainment", "#FFE66D", "\U{1F3AC}"),
    Category("4", "Shopping", "#95E1D3", "\U{1F6CD}\U{FE0F}"),
    Category("5", "Utilities", "#A8E6CF", "\U{1F4A1}")
  ]

  const NoExpenseChange := ExpensePatch(None, None, None, None, None, None, None)

  /** `{ ...expense, id }`. */
  function NewExpense(x: ExpenseInput, id: string): Expense {
    Expense(id, x.title, x.amount, x.date, x.categoryIds, x.description, x.images, None)
  }

  /** `{ ...category, id }`. */
  function NewCategory(x: CategoryInput, id: string): Category {
    Category(id, x.name, x.color, x.icon)
  }

  /** `{ ...e, ...patch }`: every supplied field replaces the old one. */
  function Merge(e: Expense, p: ExpensePatch): Expense {
    Expense(
      p.id.GetOr(e.id),
      p.title.GetOr(e.title),
      p.amount.GetOr(e.amount),
      p.date.GetOr(e.date),
      p.categoryIds.GetOr(e.categoryIds),
      if p.description.Some? then p.description else e.description,
      if p.images.Some? then p.images else e.images,
      e.categoryId)
  }

  /** `{ ...c, ...patch }`. */
  function MergeCategory(c: Category, p: CategoryPatch): Category {
    Category(p.id.GetOr(c.id), p.name.GetOr(c.name), p.color.GetOr(c.color), p.icon.GetOr(c.icon))
  }

  /** The patch that applies `p` and then `q`: `{ ...p, ...q }`. */
  function ThenPatch(p: ExpensePatch, q: ExpensePatch): ExpensePatch {
    ExpensePatch(
      if q.id.Some? then q.id else p.id,
      if q.title.Some? then q.title else p.title,
      if q.amount.Some? then q.amount else p.amount,
      if q.date.Some? then q.date else p.date,
      if q.categoryIds.Some? then q.categoryIds else p.categoryIds,
      if q.description.Some? then q.description else p.description,
      if q.images.Some? then q.images else p.images)
  }

  /** The new list of `updateExpense(id, p)`. */
  function UpdateExpenses(es: seq<Expense>, id: string, p: ExpensePatch): seq<Expense> {
    Map(es, (e: Expense) => if e.id == id then Merge(e, p) else e)
  }

  /** The new list of `deleteExpense(id)`. */
  function DeleteExpenses(es: seq<Expense>, id: string): seq<Expense> {
    Filter(es, (e: Expense) => e.id != id)
  }

  /** The new list of `updateCategory(id, p)`. */
  function UpdateCategories(cs: seq<Category>, id: string, p: CategoryPatch): seq<Category> {
    Map(cs, (c: Category) => if c.id == id then MergeCategory(c, p) else c)
  }

  /** The new category list of `deleteCategory(id)`. */
  function DeleteCategories(cs: seq<Category>, id: string): seq<Category> {
    Filter(cs, (c: Category) => c.id != id)
  }

  /** `{ ...e, categoryIds: e.categoryIds.filter(cid => cid !== id) }`. */
  function Untag(e: Expense, id: string): Expense {
    e.(categoryIds := Filter(e.categoryIds, cid => cid != id))
  }

  /** The new expense list of `deleteCategory(id)`. */
  function UntagAll(es: seq<Expense>, id: string): seq<Expense> {
    Map(es, (e: Expense) => Untag(e, id))
  }

  function ExpenseIds(es: seq<Expense>): seq<string> {
    Map(es, (e: Expense) => e.id)
  }

  function CategoryIds(cs: seq<Category>): seq<string> {
    Map(cs, (c: Category) => c.id)
  }

  /** Every category reference of every expense names an existing category. */
  ghost predicate ReferencesValid(es: seq<Expense>, cs: seq<Category>) {
    forall e, cid :: e in es && cid in e.categoryIds ==> cid in CategoryIds(cs)
  }

  class ExpenseStore {
    var expenses: seq<Expense>
    var categories: seq<Category>

    /** The store before anything is persisted: no expenses and the five default categories. */
    constructor ()
      ensures expenses == [] && categories == DefaultCategories
      ensures CategoryIds(categories) == ["1", "2", "3", "4", "5"]
    {
      expenses := [];
      categories := DefaultCategories;
    }

    /** `addExpense`: `freshId` is the `Date.now()` text the source uses as id. */
    method AddExpense(expense: ExpenseInput, freshId: string)
      modifies this
      ensures expenses == old(expenses) + [NewExpense(expense, freshId)]
      ensures categories == old(categories)
    {
      expenses := expenses + [NewExpense(expense, freshId)];
    }

    method UpdateExpense(id: string, patch: ExpensePatch)
      modifies this
      ensures expenses == UpdateExpenses(old(expenses), id, patch)
      ensures categories == old(categories)
    {
      expenses := UpdateExpenses(expenses, id, patch);
    }

    method DeleteExpense(id: string)
      modifies this
      ensures expenses == DeleteExpenses(old(expenses), id)
      ensures categories == old(categories)
    {
      expenses := DeleteExpenses(expenses, id);
    }

    /** `addCategory`: `freshId` is the `Date.now()` text the source uses as id. */
    method AddCategory(category: CategoryInput, freshId: string)
      modifies this
      ensures categories == old(categories) + [NewCategory(category, freshId)]
      ensures expenses == old(expenses)
    {
      categories := categories + [NewCategory(category, freshId)];
    }

    method UpdateCategory(id: string, patch: CategoryPatch)
      modifies this
      ensures categories == UpdateCategories(old(categories), id, patch)
      ensures expenses == old(expenses)
    {
      categories := UpdateCategories(categories, id, patch);
    }

    /** `deleteCategory`: removes the category and every reference to it, in one step. */
    method DeleteCategory(id: string)
      modifies this
      ensures categories == DeleteCategories(old(categories), id)
      ensures expenses == UntagAll(old(expenses), id)
      ensures forall c :: c in categories ==> c.id != id
      ensures forall e :: e in expenses ==> id !in e.categoryIds
      ensures ReferencesValid(old(expenses), old(categories)) ==> ReferencesValid(expenses, categories)
    {
      ghost var es, cs := expenses, categories;
      categories := DeleteCategories(categories, id);
      expenses := UntagAll(expenses, id);
      DeleteCategoryRemovesReferences(es, cs, id);
      if ReferencesValid(es, cs) {
        DeleteCategoryKeepsReferencesValid(es, cs, id);
      }
    }
  }

  // ---------------------------------------------------------------- updateExpense

  /** Each supplied field overwrites, each field not supplied keeps its value. */
  lemma MergeFields(e: Expense, p: ExpensePatch)
    ensures var m := Merge(e, p);
      && (p.title.Some? ==> m.title == p.title.value) && (p.title.None? ==> m.title == e.title)
      && (p.amount.Some? ==> m.amount == p.amount.value) && (p.amount.None? ==> m.amount == e.amount)
      && (p.date.Some? ==> m.date == p.date.value) && (p.date.None? ==> m.date == e.date)
      && (p.categoryIds.Some? ==> m.categoryIds == p.categoryIds.value)
      && (p.categoryIds.None? ==> m.categoryIds == e.categoryIds)
      && (p.description.Some? ==> m.description == p.description)
      && (p.description.None? ==> m.description == e.description)
      && (p.images.Some? ==> m.images == p.images) && (p.images.None? ==> m.images == e.images)
      && (p.id.Some? ==> m.id == p.id.value) && (p.id.None? ==> m.id == e.id)
      && m.categoryId == e.categoryId
  {
  }

  /** Merging an empty patch changes nothing; merging twice is merging once. */
  lemma MergeLaws(e: Expense, p: ExpensePatch, q: ExpensePatch)
    ensures Merge(e, NoExpenseChange) == e
    ensures Merge(Merge(e, p), p) == Merge(e, p)
    ensures Merge(Merge(e, p), q) == Merge(e, ThenPatch(p, q))
  {
  }

  /** `updateExpense` keeps length and order and changes exactly the matching expenses. */
  lemma UpdateExpensesAt(es: seq<Expense>, id: string, p: ExpensePatch, i: int)
    requires 0 <= i < |es|
    ensures |UpdateExpenses(es, id, p)| == |es|
    ensures es[i].id == id ==> UpdateExpenses(es, id, p)[i] == Merge(es[i], p)
    ensures es[i].id != id ==> UpdateExpenses(es, id, p)[i] == es[i]
  {
  }

  /** `updateExpense` with an id that no expense has is a no-op. */
  lemma UpdateAbsentIsNoOp(es: seq<Expense>, id: string, p: ExpensePatch)
    requires id !in ExpenseIds(es)
    ensures UpdateExpenses(es, id, p) == es
  {
    forall i | 0 <= i < |es| ensures UpdateExpenses(es, id, p)[i] == es[i] {
      assert ExpenseIds(es)[i] == es[i].id;
    }
  }

  /** A patch without an id keeps the list of ids, so unique ids stay unique. */
  lemma UpdateKeepsIds(es: seq<Expense>, id: string, p: ExpensePatch)
    requires p.id.None?
    ensures ExpenseIds(UpdateExpenses(es, id, p)) == ExpenseIds(es)
  {
  }

  // ---------------------------------------------------------------- deleteExpense

  /** `deleteExpense` keeps exactly the expenses with another id. */
  lemma DeleteExpensesKeeps(es: seq<Expense>, id: string)
    ensures forall e :: e in DeleteExpenses(es, id) <==> e in es && e.id != id
    ensures id !in ExpenseIds(DeleteExpenses(es, id))
  {
  }

  /** `deleteExpense` keeps the survivors in order: it distributes over concatenation. */
  lemma DeleteExpensesInOrder(a: seq<Expense>, b: seq<Expense>, id: string)
    ensures DeleteExpenses(a + b, id) == DeleteExpenses(a, id) + DeleteExpenses(b, id)
  {
    FilterConcat(a, b, (e: Expense) => e.id != id);
  }

  /** Deleting twice is deleting once, and deleting an absent id is a no-op. */
  lemma DeleteExpensesIdempotent(es: seq<Expense>, id: string)
    ensures DeleteExpenses(DeleteExpenses(es, id), id) == DeleteExpenses(es, id)
    ensures id !in ExpenseIds(es) ==> DeleteExpenses(es, id) == es
  {
    FilterIdempotent(es, (e: Expense) => e.id != id);
    if id !in ExpenseIds(es) {
      forall e | e in es ensures e.id != id {
        var k :| 0 <= k < |es| && es[k] == e;
        assert ExpenseIds(es)[k] == e.id;
      }
      FilterKeepsAll(es, (e: Expense) => e.id != id);
    }
  }

  // ---------------------------------------------------------------- unique ids

  lemma {:induction false} ExpenseIdsConcat(a: seq<Expense>, b: seq<Expense>)
    ensures ExpenseIds(a + b) == ExpenseIds(a) + ExpenseIds(b)
  {
    MapConcat(a, b, (e: Expense) => e.id);
  }

  /** Adding an expense whose id is new keeps the ids unique. */
  lemma AddKeepsIdsUnique(es: seq<Expense>, x: ExpenseInput, freshId: string)
    requires Distinct(ExpenseIds(es)) && freshId !in ExpenseIds(es)
    ensures Distinct(ExpenseIds(es + [NewExpense(x, freshId)]))
  {
    ExpenseIdsConcat(es, [NewExpense(x, freshId)]);
    assert ExpenseIds([NewExpense(x, freshId)]) == [freshId];
  }

  /** Deleting an expense keeps the ids unique. */
  lemma DeleteKeepsIdsUnique(es: seq<Expense>, id: string)
    requires Distinct(ExpenseIds(es))
    ensures Distinct(ExpenseIds(DeleteExpenses(es, id)))
  {
    FilterMapDistinct(es, (e: Expense) => e.id != id, (e: Expense) => e.id);
  }

  // ---------------------------------------------------------------- categories

  /** `updateCategory` keeps length and order and merges into matching categories only. */
  lemma UpdateCategoriesAt(cs: seq<Category>, id: string, p: CategoryPatch, i: int)
    requires 0 <= i < |cs|
    ensures |UpdateCategories(cs, id, p)| == |cs|
    ensures cs[i].id == id ==> UpdateCategories(cs, id, p)[i] == MergeCategory(cs[i], p)
    ensures cs[i].id != id ==> UpdateCategories(cs, id, p)[i] == cs[i]
  {
  }

  lemma {:induction false} CategoryIdsConcat(a: seq<Category>, b: seq<Category>)
    ensures CategoryIds(a + b) == CategoryIds(a) + CategoryIds(b)
  {
    MapConcat(a, b, (c: Category) => c.id);
  }

  /** Adding a category whose id is new keeps the category ids unique. */
  lemma AddCategoryKeepsIdsUnique(cs: seq<Category>, x: CategoryInput, freshId: string)
    requires Distinct(CategoryIds(cs)) && freshId !in CategoryIds(cs)
    ensures Distinct(CategoryIds(cs + [NewCategory(x, freshId)]))
  {
    CategoryIdsConcat(cs, [NewCategory(x, freshId)]);
    assert CategoryIds([NewCategory(x, freshId)]) == [freshId];
  }

  /** Deleting a category keeps the category ids unique. */
  lemma DeleteCategoryKeepsIdsUnique(cs: seq<Category>, id: string)
    requires Distinct(CategoryIds(cs))
    ensures Distinct(CategoryIds(DeleteCategories(cs, id)))
  {
    FilterMapDistinct(cs, (c: Category) => c.id != id, (c: Category) => c.id);
  }

  /** A category patch without an id keeps the list of category ids, so unique ids stay unique. */
  lemma UpdateCategoryKeepsIds(cs: seq<Category>, id: string, p: CategoryPatch)
    requires p.id.None?
    ensures CategoryIds(UpdateCategories(cs, id, p)) == CategoryIds(cs)
  {
  }

  /** After `deleteCategory(id)` neither a category nor a reference with that id is left. */
  lemma DeleteCategoryRemovesReferences(es: seq<Expense>, cs: seq<Category>, id: string)
    ensures forall c :: c in DeleteCategories(cs, id) ==> c.id != id
    ensures forall e :: e in UntagAll(es, id) ==> id !in e.categoryIds
  {
    var r := UntagAll(es, id);
    forall e | e in r ensures id !in e.categoryIds {
      var k :| 0 <= k < |r| && r[k] == e;
    }
  }

  /**
   * `deleteCategory` keeps the number and order of the expenses and changes nothing but
   * `categoryIds`, from which it drops exactly that id, keeping the others in order.
   */
  lemma UntagAllChangesOnlyTags(es: seq<Expense>, id: string, i: int)
    requires 0 <= i < |es|
    ensures |UntagAll(es, id)| == |es|
    ensures UntagAll(es, id)[i] == es[i].(categoryIds := UntagAll(es, id)[i].categoryIds)
    ensures UntagAll(es, id)[i].categoryIds == Filter(es[i].categoryIds, cid => cid != id)
    ensures forall cid :: cid in UntagAll(es, id)[i].categoryIds <==> cid in es[i].categoryIds && cid != id
  {
  }

  /** `deleteCategory` keeps valid references valid. */
  lemma DeleteCategoryKeepsReferencesValid(es: seq<Expense>, cs: seq<Category>, id: string)
    requires ReferencesValid(es, cs)
    ensures ReferencesValid(UntagAll(es, id), DeleteCategories(cs, id))
  {
    var es', cs' := UntagAll(es, id), DeleteCategories(cs, id);
    forall e, cid | e in es' && cid in e.categoryIds ensures cid in CategoryIds(cs') {
      var k :| 0 <= k < |es'| && es'[k] == e;
      assert cid in es[k].categoryIds && cid != id;
      KeptCategoryStaysKnown(cs, id, cid);
    }
  }

  /** A category other than the deleted one is still there after the delete. */
  lemma KeptCategoryStaysKnown(cs: seq<Category>, id: string, cid: string)
    requires cid in CategoryIds(cs) && cid != id
    ensures cid in CategoryIds(DeleteCategories(cs, id))
  {
    var cs' := DeleteCategories(cs, id);
    var j :| 0 <= j < |cs| && CategoryIds(cs)[j] == cid;
    assert cs[j] in cs';
    var m :| 0 <= m < |cs'| && cs'[m] == cs[j];
    assert CategoryIds(cs')[m] == cid;
  }
}
