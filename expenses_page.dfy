/**
 * The expenses page (components/expenses-page.tsx): the list shown is the store's expenses
 * narrowed by a search term and an optional start and end date, then sorted by date, amount
 * or title in either direction; the export turns that list into CSV text.
 */
module ExpensesPage {
  import opened Options
  import opened Seqs
  import opened Strings
  import opened Sorting
  import opened Store

  datatype SortKey = ByDate | ByAmount | ByTitle
  datatype SortOrder = Asc | Desc

  /** The search: the title, or a description when there is one, contains the term, ignoring case. */
  predicate MatchesSearch(e: Expense, searchTerm: string) {
    Contains(ToLower(e.title), ToLower(searchTerm))
    || (e.description.Some? && Contains(ToLower(e.description.value), ToLower(searchTerm)))
  }

  /** Dated on or after `startDate`. */
  predicate OnOrAfter(e: Expense, startDate: string) {
    LessEq(startDate, e.date)
  }

  /** Dated on or before `endDate`. */
  predicate OnOrBefore(e: Expense, endDate: string) {
    LessEq(e.date, endDate)
  }

  /** What the search and the start bound keep. */
  predicate SelectedFrom(e: Expense, searchTerm: string, startDate: string) {
    MatchesSearch(e, searchTerm) && (startDate == "" || OnOrAfter(e, startDate))
  }

  /** What the page keeps, before sorting; an empty date bound keeps everything. */
  predicate Selected(e: Expense, searchTerm: string, startDate: string, endDate: string) {
    SelectedFrom(e, searchTerm, startDate) && (endDate == "" || OnOrBefore(e, endDate))
  }

  /** The selected expenses in store order: the reference the sorted list is proved against. */
  function Selection(expenses: seq<Expense>, searchTerm: string, startDate: string, endDate: string): seq<Expense> {
    Filter(expenses, (e: Expense) => Selected(e, searchTerm, startDate, endDate))
  }

  /** The ascending comparison of one key: date difference, amount difference, title order. */
  function KeyCompare(key: SortKey, a: Expense, b: Expense): int {
    match key
    case ByDate => Compare(a.date, b.date)
    case ByAmount => a.amount - b.amount
    case ByTitle => Compare(a.title, b.title)
  }

  /** The comparator handed to `sort`: the key's comparison, negated for `desc`. */
  function Comparator(key: SortKey, order: SortOrder): (Expense, Expense) -> int {
    (a: Expense, b: Expense) => if order == Asc then KeyCompare(key, a, b) else -KeyCompare(key, a, b)
  }

  /** `filteredExpenses`: successive filters on `filtered`, then a stable sort of it. */
  method FilteredExpenses(
    expenses: seq<Expense>, searchTerm: string, startDate: string, endDate: string,
    sortBy: SortKey, sortOrder: SortOrder)
    returns (filtered: seq<Expense>)
    ensures forall e :: e in filtered <==> e in expenses && Selected(e, searchTerm, startDate, endDate)
    ensures multiset(filtered) == multiset(Selection(expenses, searchTerm, startDate, endDate))
    ensures sortOrder == Asc ==>
      forall i, j :: 0 <= i < j < |filtered| ==> KeyCompare(sortBy, filtered[i], filtered[j]) <= 0
    ensures sortOrder == Desc ==>
      forall i, j :: 0 <= i < j < |filtered| ==> KeyCompare(sortBy, filtered[i], filtered[j]) >= 0
    ensures forall z :: Ties(filtered, z, Comparator(sortBy, sortOrder))
                        == Ties(Selection(expenses, searchTerm, startDate, endDate), z, Comparator(sortBy, sortOrder))
  {
    filtered := Filter(expenses, (e: Expense) => MatchesSearch(e, searchTerm));
    if startDate != "" {
      filtered := Filter(filtered, (e: Expense) => OnOrAfter(e, startDate));
    }
    StartStep(expenses, searchTerm, startDate);
    if endDate != "" {
      filtered := Filter(filtered, (e: Expense) => OnOrBefore(e, endDate));
    }
    EndStep(expenses, searchTerm, startDate, endDate);
    ghost var selection := filtered;
    filtered := Sort(filtered, Comparator(sortBy, sortOrder));
    SortMeetsOrder(selection, sortBy, sortOrder);
  }

  /** The first two filters together keep what `SelectedFrom` keeps. */
  lemma StartStep(expenses: seq<Expense>, searchTerm: string, startDate: string)
    ensures (if startDate != ""
             then Filter(Filter(expenses, (e: Expense) => MatchesSearch(e, searchTerm)), (e: Expense) => OnOrAfter(e, startDate))
             else Filter(expenses, (e: Expense) => MatchesSearch(e, searchTerm)))
            == Filter(expenses, (e: Expense) => SelectedFrom(e, searchTerm, startDate))
  {
    if startDate != "" {
      FilterFilter(expenses, (e: Expense) => MatchesSearch(e, searchTerm), (e: Expense) => OnOrAfter(e, startDate),
        (e: Expense) => SelectedFrom(e, searchTerm, startDate));
    } else {
      FilterCongruent(expenses, (e: Expense) => MatchesSearch(e, searchTerm),
        (e: Expense) => SelectedFrom(e, searchTerm, startDate));
    }
  }

  /** The third filter completes the selection. */
  lemma EndStep(expenses: seq<Expense>, searchTerm: string, startDate: string, endDate: string)
    ensures (if endDate != ""
             then Filter(Filter(expenses, (e: Expense) => SelectedFrom(e, searchTerm, startDate)), (e: Expense) => OnOrBefore(e, endDate))
             else Filter(expenses, (e: Expense) => SelectedFrom(e, searchTerm, startDate)))
            == Selection(expenses, searchTerm, startDate, endDate)
  {
    if endDate != "" {
      FilterFilter(expenses, (e: Expense) => SelectedFrom(e, searchTerm, startDate), (e: Expense) => OnOrBefore(e, endDate),
        (e: Expense) => Selected(e, searchTerm, startDate, endDate));
    } else {
      FilterCongruent(expenses, (e: Expense) => SelectedFrom(e, searchTerm, startDate),
        (e: Expense) => Selected(e, searchTerm, startDate, endDate));
    }
  }

  /** The stable sort by one of the six comparators: a permutation, ordered by the key, ties kept in order. */
  lemma SortMeetsOrder(s: seq<Expense>, key: SortKey, order: SortOrder)
    ensures var r := Sort(s, Comparator(key, order));
      && (forall e :: e in r <==> e in s)
      && multiset(r) == multiset(s)
      && (order == Asc ==> forall i, j :: 0 <= i < j < |r| ==> KeyCompare(key, r[i], r[j]) <= 0)
      && (order == Desc ==> forall i, j :: 0 <= i < j < |r| ==> KeyCompare(key, r[i], r[j]) >= 0)
      && (forall z :: Ties(r, z, Comparator(key, order)) == Ties(s, z, Comparator(key, order)))
  {
    var cmp := Comparator(key, order);
    var r := Sort(s, cmp);
    ComparatorConsistent(key, order);
    SortPermutes(s, cmp);
    SortSorted(s, cmp);
    forall z ensures Ties(r, z, cmp) == Ties(s, z, cmp) {
      SortStable(s, z, cmp);
    }
    forall e ensures e in r <==> e in s {
      assert e in r <==> e in multiset(r);
    }
    forall i, j | 0 <= i < j < |r| ensures order == Asc ==> KeyCompare(key, r[i], r[j]) <= 0 {
      assert cmp(r[i], r[j]) <= 0;
    }
    forall i, j | 0 <= i < j < |r| ensures order == Desc ==> KeyCompare(key, r[i], r[j]) >= 0 {
      assert cmp(r[i], r[j]) <= 0;
    }
  }

  // ---------------------------------------------------------------- the comparator

  /** What each key's comparison means: date and title order as strings, amount order as numbers. */
  lemma KeyCompareMeaning(key: SortKey, a: Expense, b: Expense)
    ensures key == ByDate ==> (KeyCompare(key, a, b) <= 0 <==> LessEq(a.date, b.date))
    ensures key == ByAmount ==> (KeyCompare(key, a, b) <= 0 <==> a.amount <= b.amount)
    ensures key == ByTitle ==> (KeyCompare(key, a, b) <= 0 <==> LessEq(a.title, b.title))
    ensures KeyCompare(key, a, b) < 0 <==> KeyCompare(key, b, a) > 0
  {
  }

  lemma KeyCompareTransitive(key: SortKey, a: Expense, b: Expense, c: Expense)
    requires KeyCompare(key, a, b) <= 0 && KeyCompare(key, b, c) <= 0
    ensures KeyCompare(key, a, c) <= 0
  {
    match key
    case ByDate => LessEqTransitive(a.date, b.date, c.date);
    case ByAmount =>
    case ByTitle => LessEqTransitive(a.title, b.title, c.title);
  }

  /** Each of the six comparators is a consistent three-way comparison, so the sort is well defined. */
  lemma ComparatorConsistent(key: SortKey, order: SortOrder)
    ensures Consistent(Comparator(key, order))
  {
    var cmp := Comparator(key, order);
    forall a: Expense, b: Expense ensures cmp(a, b) < 0 <==> cmp(b, a) > 0 {
      KeyCompareMeaning(key, a, b);
    }
    forall a: Expense, b: Expense, c: Expense | cmp(a, b) <= 0 && cmp(b, c) <= 0
      ensures cmp(a, c) <= 0
    {
      if order == Asc {
        KeyCompareTransitive(key, a, b, c);
      } else {
        KeyCompareMeaning(key, a, b);
        KeyCompareMeaning(key, b, c);
        KeyCompareMeaning(key, a, c);
        KeyCompareTransitive(key, c, b, a);
      }
    }
  }

  /** Negating a tie gives a tie: both directions group the same elements as ties, in the same order. */
  lemma {:induction false} TiesIgnoreDirection(s: seq<Expense>, z: Expense, key: SortKey)
    ensures Ties(s, z, Comparator(key, Asc)) == Ties(s, z, Comparator(key, Desc))
  {
    if s != [] {
      TiesIgnoreDirection(s[1..], z, key);
      TiesCons(s, z, Comparator(key, Asc));
      TiesCons(s, z, Comparator(key, Desc));
    }
  }

  /** The sorted list is fully determined: any other sorted, stable permutation is the same list. */
  lemma FilteredExpensesUnique(selection: seq<Expense>, r: seq<Expense>, key: SortKey, order: SortOrder)
    requires multiset(r) == multiset(selection)
    requires Sorted(r, Comparator(key, order))
    requires forall z :: Ties(r, z, Comparator(key, order)) == Ties(selection, z, Comparator(key, order))
    ensures r == Sort(selection, Comparator(key, order))
  {
    var cmp := Comparator(key, order);
    ComparatorConsistent(key, order);
    SortPermutes(selection, cmp);
    SortSorted(selection, cmp);
    forall z ensures Ties(r, z, cmp) == Ties(Sort(selection, cmp), z, cmp) {
      SortStable(selection, z, cmp);
    }
    StableSortIsUnique(r, Sort(selection, cmp), cmp);
  }

  // ---------------------------------------------------------------- the filters

  /** An empty search term and no date bounds keep every expense, in store order. */
  lemma EmptyCriteriaKeepAll(expenses: seq<Expense>)
    ensures Selection(expenses, "", "", "") == expenses
  {
    forall e: Expense ensures Selected(e, "", "", "") {
      ContainsEmpty(ToLower(e.title));
    }
    FilterKeepsAll(expenses, (e: Expense) => Selected(e, "", "", ""));
  }

  /** Both date bounds are inclusive: an expense dated on a bound is kept if the search matches. */
  lemma BoundsInclusive(e: Expense, searchTerm: string)
    requires MatchesSearch(e, searchTerm)
    ensures Selected(e, searchTerm, e.date, e.date)
  {
  }

  // ---------------------------------------------------------------- the CSV export

  const Headers: seq<string> := ["Title", "Category", "Amount", "Date", "Description"]

  /** `"${cell}"`: the cell between double quotes, inner quotes left as they are. */
  function Quote(cell: string): string {
    "\"" + cell + "\""
  }

  function CsvLine(row: seq<string>): string {
    Join(Map(row, Quote), ",")
  }

  /** `${e.categoryId}`: the legacy field, or the text "undefined" when it is absent. */
  function CategoryCell(e: Expense): string {
    match e.categoryId
    case Some(c) => c
    case None => "undefined"
  }

  /** The five cells of an expense; `amountText` is JavaScript's number-to-text conversion. */
  function Row(e: Expense, amountText: int -> string): seq<string> {
    [e.title, CategoryCell(e), amountText(e.amount), e.date, e.description.GetOr("")]
  }

  /** The exported text: the header line, then one line per listed expense, joined by newlines. */
  function Csv(filtered: seq<Expense>, amountText: int -> string): string {
    Join(Map([Headers] + Map(filtered, (e: Expense) => Row(e, amountText)), CsvLine), "\n")
  }

  /** A character in no part and not in the separator is not in the joined text. */
  lemma {:induction false} JoinAvoids(parts: seq<string>, sep: string, c: char)
    requires forall k :: 0 <= k < |parts| ==> c !in parts[k]
    requires c !in sep
    ensures c !in Join(parts, sep)
  {
    if |parts| > 1 {
      JoinAvoids(parts[1..], sep, c);
    }
  }

  /** A line holds a newline only if one of its cells does. */
  lemma LineAvoids(row: seq<string>, c: char)
    requires c != '"' && c != ','
    requires forall k :: 0 <= k < |row| ==> c !in row[k]
    ensures c !in CsvLine(row)
  {
    JoinAvoids(Map(row, Quote), ",", c);
  }

  /** A line's cells: splitting it at the commas gives back the quoted cells when none holds a comma. */
  lemma LineCells(row: seq<string>)
    requires |row| >= 1
    requires forall k :: 0 <= k < |row| ==> ',' !in row[k]
    ensures Split(CsvLine(row), ',') == Map(row, Quote)
  {
    SplitJoin(Map(row, Quote), ',');
  }

  /** No cell of the expense holds a newline. */
  predicate SingleLine(e: Expense, amountText: int -> string) {
    forall k :: 0 <= k < 5 ==> '\n' !in Row(e, amountText)[k]
  }

  /**
   * The export has one line more than the list: the header line first, then each expense's
   * line in list order, provided no cell holds a newline of its own.
   */
  lemma CsvLines(filtered: seq<Expense>, amountText: int -> string)
    requires forall e :: e in filtered ==> SingleLine(e, amountText)
    ensures Split(Csv(filtered, amountText), '\n')
            == [CsvLine(Headers)] + Map(filtered, (e: Expense) => CsvLine(Row(e, amountText)))
    ensures |Split(Csv(filtered, amountText), '\n')| == |filtered| + 1
  {
    var lines := Map([Headers] + Map(filtered, (e: Expense) => Row(e, amountText)), CsvLine);
    var body := Map(filtered, (e: Expense) => CsvLine(Row(e, amountText)));
    assert lines == [CsvLine(Headers)] + body by {
      forall k | 0 <= k < |lines| ensures lines[k] == ([CsvLine(Headers)] + body)[k] {
        if k > 0 {
          assert lines[k] == CsvLine(Row(filtered[k - 1], amountText));
        }
      }
    }
    HeaderSingleLine();
    forall k | 0 <= k < |body| ensures '\n' !in body[k] {
      assert filtered[k] in filtered;
      LineAvoids(Row(filtered[k], amountText), '\n');
    }
    assert forall k :: 0 <= k < |lines| ==> '\n' !in lines[k] by {
      forall k | 0 <= k < |lines| ensures '\n' !in lines[k] {
        if k > 0 {
          assert lines[k] == body[k - 1];
        }
      }
    }
    SplitJoin(lines, '\n');
  }

  /** The header line holds no newline. */
  lemma HeaderSingleLine()
    ensures '\n' !in CsvLine(Headers)
  {
    assert forall k :: 0 <= k < |Headers| ==> '\n' !in Headers[k];
    LineAvoids(Headers, '\n');
  }

  /** The Category cell reads the legacy field only, so a store-created expense exports "undefined". */
  lemma CategoryCellIgnoresIds(e: Expense, ids: seq<string>, amountText: int -> string)
    ensures Row(e.(categoryIds := ids), amountText) == Row(e, amountText)
    ensures e.categoryId.None? ==> Row(e, amountText)[1] == "undefined"
  {
  }
}
