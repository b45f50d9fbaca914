/**
 * The expense table (components/expense-table.tsx): each row shows the names and the icons
 * of the expense's categories, looked up by id in the store's category list.
 */
module ExpenseTable {
  import opened Options
  import opened Seqs
  import opened Strings
  import opened Store

  /** `categories.find((c) => c.id === id)?.name`: the name of the first category with that id. */
  function NameOf(categories: seq<Category>, id: string): (r: Option<string>)
    ensures r.None? <==> id !in CategoryIds(categories)
    ensures r.Some? ==> exists k :: FirstWithId(categories, id, k) && categories[k].name == r.value
  {
    match FindIndex(categories, (c: Category) => c.id == id)
    case None => NoIdNoCategory(categories, id); None
    case Some(k) => Some(categories[k].name)
  }

  /** `categories.find((c) => c.id === id)?.icon`. */
  function IconOf(categories: seq<Category>, id: string): (r: Option<string>)
    ensures r.None? <==> id !in CategoryIds(categories)
    ensures r.Some? ==> exists k :: FirstWithId(categories, id, k) && categories[k].icon == r.value
  {
    match FindIndex(categories, (c: Category) => c.id == id)
    case None => NoIdNoCategory(categories, id); None
    case Some(k) => Some(categories[k].icon)
  }

  /** Position `k` holds the first category with id `id`. */
  predicate FirstWithId(categories: seq<Category>, id: string, k: int) {
    0 <= k < |categories| && categories[k].id == id && forall j :: 0 <= j < k ==> categories[j].id != id
  }

  /** An id in no category is not among the category ids, and the other way round. */
  lemma NoIdNoCategory(categories: seq<Category>, id: string)
    ensures (forall c :: c in categories ==> c.id != id) <==> id !in CategoryIds(categories)
  {
    if id in CategoryIds(categories) {
      var k :| 0 <= k < |categories| && CategoryIds(categories)[k] == id;
      assert categories[k] in categories;
    }
  }

  /** `.filter(Boolean)`: keeps the found values that are not the empty string, in order. */
  function Present(xs: seq<Option<string>>): (r: seq<string>)
    ensures |r| <= |xs|
    ensures forall v :: v in r <==> Some(v) in xs && v != ""
  {
    if xs == [] then []
    else (if xs[0].Some? && xs[0].value != "" then [xs[0].value] else []) + Present(xs[1..])
  }

  /** The names shown, before joining. */
  function NameList(categories: seq<Category>, ids: seq<string>): seq<string> {
    Present(Map(ids, id => NameOf(categories, id)))
  }

  /** `getCategoryNames`. */
  function CategoryNames(categories: seq<Category>, ids: seq<string>): string {
    Join(NameList(categories, ids), ", ")
  }

  /** `getCategoryIcons`. */
  function CategoryIcons(categories: seq<Category>, ids: seq<string>): seq<string> {
    Present(Map(ids, id => IconOf(categories, id)))
  }

  lemma {:induction false} PresentConcat(a: seq<Option<string>>, b: seq<Option<string>>)
    ensures Present(a + b) == Present(a) + Present(b)
  {
    if a == [] {
      assert a + b == b;
    } else {
      assert (a + b)[1..] == a[1..] + b;
      PresentConcat(a[1..], b);
    }
  }

  /** The names follow the order of the ids: the lookup distributes over concatenation of ids. */
  lemma NameListConcat(categories: seq<Category>, a: seq<string>, b: seq<string>)
    ensures NameList(categories, a + b) == NameList(categories, a) + NameList(categories, b)
  {
    MapConcat(a, b, id => NameOf(categories, id));
    PresentConcat(Map(a, id => NameOf(categories, id)), Map(b, id => NameOf(categories, id)));
  }

  /** The icons follow the order of the ids. */
  lemma IconsConcat(categories: seq<Category>, a: seq<string>, b: seq<string>)
    ensures CategoryIcons(categories, a + b) == CategoryIcons(categories, a) + CategoryIcons(categories, b)
  {
    MapConcat(a, b, id => IconOf(categories, id));
    PresentConcat(Map(a, id => IconOf(categories, id)), Map(b, id => IconOf(categories, id)));
  }

  /** One id shows its category's name, or nothing when the id is unknown or the name is empty. */
  lemma SingleIdName(categories: seq<Category>, id: string)
    ensures NameList(categories, [id]) ==
      if id in CategoryIds(categories) && NameOf(categories, id).value != "" then [NameOf(categories, id).value] else []
  {
    assert Map([id], id => NameOf(categories, id)) == [NameOf(categories, id)];
    assert Present([NameOf(categories, id)]) ==
      (if NameOf(categories, id).Some? && NameOf(categories, id).value != "" then [NameOf(categories, id).value] else []) + Present([]);
  }

  /** One id shows its category's icon, or nothing when the id is unknown or the icon is empty. */
  lemma SingleIdIcon(categories: seq<Category>, id: string)
    ensures CategoryIcons(categories, [id]) ==
      if id in CategoryIds(categories) && IconOf(categories, id).value != "" then [IconOf(categories, id).value] else []
  {
    assert Map([id], id => IconOf(categories, id)) == [IconOf(categories, id)];
    assert Present([IconOf(categories, id)]) ==
      (if IconOf(categories, id).Some? && IconOf(categories, id).value != "" then [IconOf(categories, id).value] else []) + Present([]);
  }

  /** Every name shown is the name of a category one of the ids refers to. */
  lemma NamesAreKnown(categories: seq<Category>, ids: seq<string>, n: string)
    requires n in NameList(categories, ids)
    ensures n != "" && exists id :: id in ids && NameOf(categories, id) == Some(n)
  {
    var xs := Map(ids, id => NameOf(categories, id));
    var k :| 0 <= k < |xs| && xs[k] == Some(n);
    assert NameOf(categories, ids[k]) == Some(n);
  }

  /** There are never more icons than ids. */
  lemma IconsAtMostIds(categories: seq<Category>, ids: seq<string>)
    ensures |CategoryIcons(categories, ids)| <= |ids|
  {
  }

  /** A repeated id shows its name and its icon twice. */
  lemma RepeatedIdRepeats(categories: seq<Category>, id: string)
    requires id in CategoryIds(categories)
    requires NameOf(categories, id).value != "" && IconOf(categories, id).value != ""
    ensures NameList(categories, [id, id]) == [NameOf(categories, id).value, NameOf(categories, id).value]
    ensures CategoryIcons(categories, [id, id]) == [IconOf(categories, id).value, IconOf(categories, id).value]
  {
    NameListConcat(categories, [id], [id]);
    SingleIdName(categories, id);
    IconsConcat(categories, [id], [id]);
    SingleIdIcon(categories, id);
    assert [id] + [id] == [id, id];
  }

  /** The names of two id lists shown together are joined by one ", " between them. */
  lemma CategoryNamesConcat(categories: seq<Category>, a: seq<string>, b: seq<string>)
    requires NameList(categories, a) != [] && NameList(categories, b) != []
    ensures CategoryNames(categories, a + b)
            == CategoryNames(categories, a) + ", " + CategoryNames(categories, b)
  {
    NameListConcat(categories, a, b);
    JoinConcat(NameList(categories, a), NameList(categories, b), ", ");
  }
}
