/**
 * The expense form (components/expense-form.tsx): its field values, the two updaters that
 * toggle a category and remove an image, the prefill from the expense being edited, and the
 * submit that either adds an expense to the store or updates the edited one.
 */
module ExpenseForm {
  import opened Options
  import opened Seqs
  import opened Store

  /** The form's fields; the amount is the text typed in, parsed only on submit. */
  datatype FormData = FormData(
    title: string,
    amount: string,
    date: string,
    categoryIds: seq<string>,
    description: string,
    images: seq<string>)

  /** A fresh form; `today` is the date part of the current ISO timestamp. */
  function InitialForm(today: string): FormData {
    FormData("", "", today, [], "", [])
  }

  /** The `toggleCategory` updater: drop every occurrence of a present id, append an absent one. */
  function Toggle(ids: seq<string>, c: string): seq<string> {
    if c in ids then Filter(ids, id => id != c) else ids + [c]
  }

  /** `s.filter((_, i) => i !== index)`. */
  function RemoveAt<T>(s: seq<T>, index: int): seq<T> {
    if s == [] then [] else (if index == 0 then [] else [s[0]]) + RemoveAt(s[1..], index - 1)
  }

  /** `if (editingId)`: an edit is underway for a non-null, non-empty id. */
  predicate IsEditing(editingId: Option<string>) {
    editingId.Some? && editingId != Some("")
  }

  /** Position `k` holds the first expense with id `id`. */
  predicate FirstWithId(expenses: seq<Expense>, id: string, k: int) {
    0 <= k < |expenses| && expenses[k].id == id && forall j :: 0 <= j < k ==> expenses[j].id != id
  }

  /** The expense the prefill copies from: the first one with the id, if an edit is underway. */
  function EditTarget(editingId: Option<string>, expenses: seq<Expense>): (r: Option<Expense>)
    ensures r.Some? ==> IsEditing(editingId) && r.value in expenses && r.value.id == editingId.value
    ensures r.Some? ==> exists k :: FirstWithId(expenses, editingId.value, k) && expenses[k] == r.value
    ensures r.None? <==> !IsEditing(editingId) || forall e :: e in expenses ==> e.id != editingId.value
  {
    if IsEditing(editingId) then Find(expenses, (e: Expense) => e.id == editingId.value) else None
  }

  /** The form values copied from an expense; `amountText` is `amount.toString()`. */
  function PrefillFrom(e: Expense, amountText: int -> string): FormData {
    FormData(e.title, amountText(e.amount), e.date, e.categoryIds, e.description.GetOr(""), e.images.GetOr([]))
  }

  /** The submit guard: a title, an amount text and at least one category. */
  predicate CanSubmit(f: FormData) {
    f.title != "" && f.amount != "" && |f.categoryIds| > 0
  }

  /** The fields submitted; `parseAmount` is `Number.parseFloat`. */
  function Fields(f: FormData, parseAmount: string -> int): ExpenseInput {
    ExpenseInput(f.title, parseAmount(f.amount), f.date, f.categoryIds, Some(f.description), Some(f.images))
  }

  /** The same fields as an update: every declared field but the id is supplied. */
  function AsPatch(x: ExpenseInput): ExpensePatch {
    ExpensePatch(None, Some(x.title), Some(x.amount), Some(x.date), Some(x.categoryIds), x.description, x.images)
  }

  class FormState {
    var formData: FormData
    var imagePreview: seq<string>
    const editingId: Option<string>

    constructor (editingId: Option<string>, today: string)
      ensures this.editingId == editingId
      ensures formData == InitialForm(today) && imagePreview == []
    {
      this.editingId := editingId;
      formData := InitialForm(today);
      imagePreview := [];
    }

    /** The effect that copies the edited expense into the form; an unknown id changes nothing. */
    method Prefill(expenses: seq<Expense>, amountText: int -> string)
      modifies this
      ensures EditTarget(editingId, expenses).Some? ==>
        var e := EditTarget(editingId, expenses).value;
        formData == PrefillFrom(e, amountText) && imagePreview == e.images.GetOr([])
      ensures EditTarget(editingId, expenses).None? ==>
        formData == old(formData) && imagePreview == old(imagePreview)
    {
      if editingId.Some? && editingId.value != "" {
        var expense := Find(expenses, (e: Expense) => e.id == editingId.value);
        if expense.Some? {
          formData := PrefillFrom(expense.value, amountText);
          imagePreview := expense.value.images.GetOr([]);
        }
      }
    }

    method ToggleCategory(categoryId: string)
      modifies this
      ensures formData == old(formData).(categoryIds := Toggle(old(formData).categoryIds, categoryId))
      ensures imagePreview == old(imagePreview)
    {
      formData := formData.(categoryIds := Toggle(formData.categoryIds, categoryId));
    }

    /** Removes the image at `index` from the form and from the previews alike. */
    method RemoveImage(index: int)
      modifies this
      ensures formData == old(formData).(images := RemoveAt(old(formData).images, index))
      ensures imagePreview == RemoveAt(old(imagePreview), index)
    {
      formData := formData.(images := RemoveAt(formData.images, index));
      imagePreview := RemoveAt(imagePreview, index);
    }

    /**
     * `handleSubmit`: nothing when the guard fails; otherwise exactly one store action, an
     * update of the edited expense or the addition of a new one with id `freshId`.
     */
    method HandleSubmit(store: ExpenseStore, parseAmount: string -> int, freshId: string)
      returns (submitted: bool)
      modifies store
      ensures submitted == CanSubmit(formData)
      ensures !submitted ==> store.expenses == old(store.expenses)
      ensures submitted && IsEditing(editingId) ==>
        store.expenses == UpdateExpenses(old(store.expenses), editingId.value, AsPatch(Fields(formData, parseAmount)))
      ensures submitted && !IsEditing(editingId) ==>
        store.expenses == old(store.expenses) + [NewExpense(Fields(formData, parseAmount), freshId)]
      ensures store.categories == old(store.categories)
    {
      if formData.title == "" || formData.amount == "" || |formData.categoryIds| == 0 {
        return false;
      }
      var fields := Fields(formData, parseAmount);
      if editingId.Some? && editingId.value != "" {
        store.UpdateExpense(editingId.value, AsPatch(fields));
      } else {
        store.AddExpense(fields, freshId);
      }
      submitted := true;
    }
  }

  // ---------------------------------------------------------------- toggleCategory

  /** An id is in the toggled list exactly when it was in the list or is the toggled id, but not both. */
  lemma ToggleMembership(ids: seq<string>, c: string, x: string)
    ensures x in Toggle(ids, c) <==> (x in ids) != (x == c)
  {
  }

  /** Toggling an absent id twice gives the original list back. */
  lemma ToggleTwiceRestores(ids: seq<string>, c: string)
    requires c !in ids
    ensures Toggle(Toggle(ids, c), c) == ids
  {
    assert c in ids + [c];
    FilterConcat(ids, [c], id => id != c);
    FilterKeepsAll(ids, id => id != c);
  }

  /** Toggling keeps a duplicate-free list duplicate-free. */
  lemma ToggleKeepsDistinct(ids: seq<string>, c: string)
    requires Distinct(ids)
    ensures Distinct(Toggle(ids, c))
  {
    if c in ids {
      FilterDistinct(ids, id => id != c);
    }
  }

  // ---------------------------------------------------------------- removeImage

  /** Removing at a position in range cuts out exactly that element; out of range, nothing changes. */
  lemma {:induction false} RemoveAtMeaning<T>(s: seq<T>, index: int)
    ensures 0 <= index < |s| ==> RemoveAt(s, index) == s[..index] + s[index + 1..]
    ensures !(0 <= index < |s|) ==> RemoveAt(s, index) == s
  {
    if s != [] {
      var tail := s[1..];
      RemoveAtMeaning(tail, index - 1);
      assert RemoveAt(s, index) == (if index == 0 then [] else [s[0]]) + RemoveAt(tail, index - 1);
      if index == 0 {
        assert s[..0] + s[1..] == tail;
      } else if 0 < index < |s| {
        assert tail[..index - 1] == s[1..index] && tail[index..] == s[index + 1..];
        assert [s[0]] + s[1..index] == s[..index];
      } else {
        assert [s[0]] + tail == s;
      }
    }
  }

  // ---------------------------------------------------------------- prefill and submit

  /**
   * Saving an edit without changes rewrites the expense as it was, except that a missing
   * description becomes "" and missing images become no images.
   */
  lemma EditResaveNormalises(e: Expense, amountText: int -> string, parseAmount: string -> int)
    requires parseAmount(amountText(e.amount)) == e.amount
    ensures Merge(e, AsPatch(Fields(PrefillFrom(e, amountText), parseAmount)))
            == e.(description := Some(e.description.GetOr("")), images := Some(e.images.GetOr([])))
  {
  }

  /** A form that passes the guard adds an expense carrying every field of the form. */
  lemma SubmittedFieldsAreTheForm(f: FormData, parseAmount: string -> int, freshId: string)
    ensures var e := NewExpense(Fields(f, parseAmount), freshId);
      && e.id == freshId && e.title == f.title && e.amount == parseAmount(f.amount) && e.date == f.date
      && e.categoryIds == f.categoryIds && e.description == Some(f.description) && e.images == Some(f.images)
      && e.categoryId.None?
  {
  }
}
