/**
 * The contract of `Array.prototype.sort(compare)`: a stable sort. The comparator returns a
 * negative number, zero or a positive number; a positive result puts its second argument
 * first, and elements that compare as zero ("ties") keep their relative order.
 *
 * The engine's algorithm is not given; `Sort` is a stable insertion sort, and
 * `StableSortIsUnique` shows that every sorted, stable permutation of the input equals it,
 * so it stands for whatever stable algorithm the engine uses.
 */
module Sorting {
  import opened Seqs

  /** A comparator that describes a total preorder: antisymmetric in sign and transitive. */
  ghost predicate Consistent<T(!new)>(cmp: (T, T) -> int) {
    && (forall a, b {:trigger cmp(a, b), cmp(b, a)} :: cmp(a, b) < 0 <==> cmp(b, a) > 0)
    && (forall a, b, c {:trigger cmp(a, b), cmp(b, c), cmp(a, c)} ::
          cmp(a, b) <= 0 && cmp(b, c) <= 0 ==> cmp(a, c) <= 0)
  }

  /** No element compares greater than one after it. */
  predicate Sorted<T>(s: seq<T>, cmp: (T, T) -> int) {
    forall i, j :: 0 <= i < j < |s| ==> cmp(s[i], s[j]) <= 0
  }

  /** The elements of `s` that tie with `x`, in their order in `s`. */
  function Ties<T(!new)>(s: seq<T>, x: T, cmp: (T, T) -> int): seq<T> {
    Filter(s, y => cmp(x, y) == 0)
  }

  /** Inserts `x` after the last element that does not compare greater than it. */
  function Insert<T>(r: seq<T>, x: T, cmp: (T, T) -> int): seq<T> {
    if r == [] then [x]
    else if cmp(r[|r| - 1], x) <= 0 then r + [x]
    else Insert(r[..|r| - 1], x, cmp) + [r[|r| - 1]]
  }

  /** Where `Insert` places `x`. */
  function InsertPos<T>(r: seq<T>, x: T, cmp: (T, T) -> int): (k: nat)
    ensures k <= |r|
  {
    if r == [] then 0
    else if cmp(r[|r| - 1], x) <= 0 then |r|
    else InsertPos(r[..|r| - 1], x, cmp)
  }

  /** A stable insertion sort: each element in turn is inserted behind its ties. */
  function Sort<T>(s: seq<T>, cmp: (T, T) -> int): seq<T> {
    if s == [] then [] else Insert(Sort(s[..|s| - 1], cmp), s[|s| - 1], cmp)
  }

  /** `Insert` puts `x` between the elements not greater than it and those greater than it. */
  lemma {:induction false} InsertShape<T>(r: seq<T>, x: T, cmp: (T, T) -> int)
    ensures Insert(r, x, cmp) == r[..InsertPos(r, x, cmp)] + [x] + r[InsertPos(r, x, cmp)..]
    ensures forall j :: InsertPos(r, x, cmp) <= j < |r| ==> cmp(r[j], x) > 0
    ensures InsertPos(r, x, cmp) > 0 ==> cmp(r[InsertPos(r, x, cmp) - 1], x) <= 0
  {
    if r != [] && cmp(r[|r| - 1], x) > 0 {
      var r' := r[..|r| - 1];
      InsertShape(r', x, cmp);
      var k := InsertPos(r', x, cmp);
      assert r'[..k] == r[..k];
      assert r'[k..] + [r[|r| - 1]] == r[k..];
    }
  }

  lemma {:induction false} InsertPermutes<T>(r: seq<T>, x: T, cmp: (T, T) -> int)
    ensures multiset(Insert(r, x, cmp)) == multiset(r) + multiset{x}
  {
    if r != [] && cmp(r[|r| - 1], x) > 0 {
      InsertPermutes(r[..|r| - 1], x, cmp);
      assert r == r[..|r| - 1] + [r[|r| - 1]];
    }
  }

  /** The sort is a permutation of its input. */
  lemma {:induction false} SortPermutes<T>(s: seq<T>, cmp: (T, T) -> int)
    ensures multiset(Sort(s, cmp)) == multiset(s)
  {
    if s != [] {
      var s' := s[..|s| - 1];
      SortPermutes(s', cmp);
      InsertPermutes(Sort(s', cmp), s[|s| - 1], cmp);
      assert s == s' + [s[|s| - 1]];
    }
  }

  /** `x` placed between the elements not greater than it and those greater than it keeps order. */
  lemma SortedSplice<T(!new)>(r: seq<T>, x: T, k: nat, cmp: (T, T) -> int)
    requires Consistent(cmp) && Sorted(r, cmp) && k <= |r|
    requires forall j :: k <= j < |r| ==> cmp(r[j], x) > 0
    requires k > 0 ==> cmp(r[k - 1], x) <= 0
    ensures Sorted(r[..k] + [x] + r[k..], cmp)
  {
    var t := r[..k] + [x] + r[k..];
    forall i, j | 0 <= i < j < |t| ensures cmp(t[i], t[j]) <= 0 {
      var a := if i < k then r[i] else if i == k then x else r[i - 1];
      var b := if j < k then r[j] else if j == k then x else r[j - 1];
      assert t[i] == a && t[j] == b;
      if j == k {
        if i < k - 1 {
          assert cmp(r[i], r[k - 1]) <= 0 && cmp(r[k - 1], x) <= 0;
        }
      } else if i == k {
        assert cmp(r[j - 1], x) > 0;
      }
    }
  }

  lemma InsertSorted<T(!new)>(r: seq<T>, x: T, cmp: (T, T) -> int)
    requires Consistent(cmp) && Sorted(r, cmp)
    ensures Sorted(Insert(r, x, cmp), cmp)
  {
    InsertShape(r, x, cmp);
    SortedSplice(r, x, InsertPos(r, x, cmp), cmp);
  }

  /** The sort orders its result. */
  lemma {:induction false} SortSorted<T(!new)>(s: seq<T>, cmp: (T, T) -> int)
    requires Consistent(cmp)
    ensures Sorted(Sort(s, cmp), cmp)
  {
    if s != [] {
      SortSorted(s[..|s| - 1], cmp);
      InsertSorted(Sort(s[..|s| - 1], cmp), s[|s| - 1], cmp);
    }
  }

  lemma TiesConcat<T(!new)>(a: seq<T>, b: seq<T>, z: T, cmp: (T, T) -> int)
    ensures Ties(a + b, z, cmp) == Ties(a, z, cmp) + Ties(b, z, cmp)
  {
    FilterConcat(a, b, y => cmp(z, y) == 0);
  }

  lemma TiesSingle<T(!new)>(a: T, z: T, cmp: (T, T) -> int)
    ensures Ties([a], z, cmp) == if cmp(z, a) == 0 then [a] else []
  {
    assert [a][1..] == [];
  }

  /** An element greater than one tie of `z` is no tie of `z`. */
  lemma TieSubstitution<T(!new)>(z: T, x: T, y: T, cmp: (T, T) -> int)
    requires Consistent(cmp) && cmp(z, x) == 0 && cmp(y, x) > 0
    ensures cmp(z, y) != 0
  {
    assert cmp(z, y) == 0 ==> cmp(y, z) == 0;
  }

  /** Moving past an element that never ties with `z` together with `x` keeps the ties. */
  lemma InsertTiesStep<T(!new)>(r': seq<T>, t: seq<T>, x: T, last: T, z: T, cmp: (T, T) -> int)
    requires Ties(t, z, cmp) == Ties(r', z, cmp) + Ties([x], z, cmp)
    requires cmp(z, x) == 0 ==> cmp(z, last) != 0
    ensures Ties(t + [last], z, cmp) == Ties(r' + [last], z, cmp) + Ties([x], z, cmp)
  {
    TiesConcat(t, [last], z, cmp);
    TiesConcat(r', [last], z, cmp);
    TiesSingle(x, z, cmp);
    TiesSingle(last, z, cmp);
    var a, tx, tl := Ties(r', z, cmp), Ties([x], z, cmp), Ties([last], z, cmp);
    if tx == [] {
      assert a + tx == a && a + tl + tx == a + tl;
    } else {
      assert tl == [];
      assert a + tx + tl == a + tx && a + tl == a;
    }
  }

  lemma {:induction false} InsertTies<T(!new)>(r: seq<T>, x: T, z: T, cmp: (T, T) -> int)
    requires Consistent(cmp)
    ensures Ties(Insert(r, x, cmp), z, cmp) == Ties(r, z, cmp) + Ties([x], z, cmp)
  {
    if r == [] {
      assert Ties(r, z, cmp) == [];
    } else if cmp(r[|r| - 1], x) <= 0 {
      TiesConcat(r, [x], z, cmp);
    } else {
      var r', last := r[..|r| - 1], r[|r| - 1];
      InsertTies(r', x, z, cmp);
      if cmp(z, x) == 0 {
        TieSubstitution(z, x, last, cmp);
      }
      InsertTiesStep(r', Insert(r', x, cmp), x, last, z, cmp);
      assert r == r' + [last];
    }
  }

  /** The sort is stable: the ties of every element keep their relative order. */
  lemma {:induction false} SortStable<T(!new)>(s: seq<T>, z: T, cmp: (T, T) -> int)
    requires Consistent(cmp)
    ensures Ties(Sort(s, cmp), z, cmp) == Ties(s, z, cmp)
  {
    if s != [] {
      var s' := s[..|s| - 1];
      SortStable(s', z, cmp);
      InsertTies(Sort(s', cmp), s[|s| - 1], z, cmp);
      assert s == s' + [s[|s| - 1]];
      TiesConcat(s', [s[|s| - 1]], z, cmp);
    }
  }

  /** The first element of a sorted sequence is not greater than any other. */
  lemma SortedFirst<T>(r: seq<T>, y: T, cmp: (T, T) -> int)
    requires Sorted(r, cmp) && r != [] && y in r && cmp(r[0], r[0]) == 0
    ensures cmp(r[0], y) <= 0
  {
    var j :| 0 <= j < |r| && r[j] == y;
  }

  /** The first element of a sorted sequence ties with itself and is not greater than any other. */
  lemma LeastFirst<T(!new)>(r: seq<T>, y: T, cmp: (T, T) -> int)
    requires Consistent(cmp) && Sorted(r, cmp) && r != [] && y in multiset(r)
    ensures cmp(r[0], y) <= 0
  {
    assert cmp(r[0], r[0]) < 0 <==> cmp(r[0], r[0]) > 0;
    SortedFirst(r, y, cmp);
  }

  /** Two arrangements whose heads tie with each other and whose ties agree start alike. */
  lemma HeadsAgree<T(!new)>(r1: seq<T>, r2: seq<T>, cmp: (T, T) -> int)
    requires r1 != [] && r2 != []
    requires cmp(r1[0], r2[0]) == 0 && cmp(r1[0], r1[0]) == 0
    requires Ties(r1, r1[0], cmp) == Ties(r2, r1[0], cmp)
    ensures r1[0] == r2[0]
  {
    TiesCons(r1, r1[0], cmp);
    TiesCons(r2, r1[0], cmp);
    assert Ties(r1, r1[0], cmp)[0] == r1[0];
    assert Ties(r2, r1[0], cmp)[0] == r2[0];
  }

  /** Two sorted permutations of each other start with elements that tie. */
  lemma HeadsTie<T(!new)>(r1: seq<T>, r2: seq<T>, cmp: (T, T) -> int)
    requires Consistent(cmp)
    requires Sorted(r1, cmp) && Sorted(r2, cmp) && r1 != []
    requires multiset(r1) == multiset(r2)
    ensures r2 != [] && cmp(r1[0], r2[0]) == 0 && cmp(r1[0], r1[0]) == 0
  {
    assert r1[0] in multiset(r2);
    assert r2 != [];
    assert r2[0] in multiset(r1);
    LeastFirst(r1, r2[0], cmp);
    LeastFirst(r2, r1[0], cmp);
    assert cmp(r1[0], r1[0]) < 0 <==> cmp(r1[0], r1[0]) > 0;
    assert cmp(r1[0], r2[0]) < 0 <==> cmp(r2[0], r1[0]) > 0;
  }

  /** Permutations of each other with the same head have tails that are permutations. */
  lemma TailsPermute<T>(r1: seq<T>, r2: seq<T>)
    requires r1 != [] && r2 != [] && r1[0] == r2[0]
    requires multiset(r1) == multiset(r2)
    ensures multiset(r1[1..]) == multiset(r2[1..])
  {
    assert r1 == [r1[0]] + r1[1..] && r2 == [r2[0]] + r2[1..];
    assert multiset(r1[1..]) == multiset(r1) - multiset{r1[0]};
    assert multiset(r2[1..]) == multiset(r2) - multiset{r2[0]};
  }

  /** The first step of the uniqueness proof: equal heads and equal remaining elements. */
  lemma HeadStep<T(!new)>(r1: seq<T>, r2: seq<T>, cmp: (T, T) -> int)
    requires Consistent(cmp)
    requires Sorted(r1, cmp) && Sorted(r2, cmp) && r1 != []
    requires multiset(r1) == multiset(r2)
    requires Ties(r1, r1[0], cmp) == Ties(r2, r1[0], cmp)
    ensures r2 != [] && r1[0] == r2[0]
    ensures multiset(r1[1..]) == multiset(r2[1..])
  {
    HeadsTie(r1, r2, cmp);
    HeadsAgree(r1, r2, cmp);
    TailsPermute(r1, r2);
  }

  /** The ties of a non-empty sequence: its head, when it ties, before the ties of its tail. */
  lemma TiesCons<T(!new)>(r: seq<T>, z: T, cmp: (T, T) -> int)
    requires r != []
    ensures Ties(r, z, cmp) == (if cmp(z, r[0]) == 0 then [r[0]] else []) + Ties(r[1..], z, cmp)
  {
  }

  /** Equal ties for sequences with equal heads give equal ties for the tails. */
  lemma TailsTie<T(!new)>(r1: seq<T>, r2: seq<T>, z: T, cmp: (T, T) -> int)
    requires r1 != [] && r2 != [] && r1[0] == r2[0]
    requires Ties(r1, z, cmp) == Ties(r2, z, cmp)
    ensures Ties(r1[1..], z, cmp) == Ties(r2[1..], z, cmp)
  {
    TiesCons(r1, z, cmp);
    TiesCons(r2, z, cmp);
    var h := if cmp(z, r1[0]) == 0 then [r1[0]] else [];
    assert Ties(r1[1..], z, cmp) == (h + Ties(r1[1..], z, cmp))[|h|..];
    assert Ties(r2[1..], z, cmp) == (h + Ties(r2[1..], z, cmp))[|h|..];
  }

  /** Equal ties everywhere, with equal heads, give equal ties everywhere on the tails. */
  lemma TailsAllTie<T(!new)>(r1: seq<T>, r2: seq<T>, cmp: (T, T) -> int)
    requires r1 != [] && r2 != [] && r1[0] == r2[0]
    requires forall z :: Ties(r1, z, cmp) == Ties(r2, z, cmp)
    ensures forall z :: Ties(r1[1..], z, cmp) == Ties(r2[1..], z, cmp)
  {
    forall z ensures Ties(r1[1..], z, cmp) == Ties(r2[1..], z, cmp) {
      TailsTie(r1, r2, z, cmp);
    }
  }

  /** A sorted permutation in which every element's ties keep their order is unique. */
  lemma {:induction false} StableSortIsUnique<T(!new)>(r1: seq<T>, r2: seq<T>, cmp: (T, T) -> int)
    requires Consistent(cmp)
    requires Sorted(r1, cmp) && Sorted(r2, cmp)
    requires multiset(r1) == multiset(r2)
    requires forall z :: Ties(r1, z, cmp) == Ties(r2, z, cmp)
    ensures r1 == r2
  {
    if r1 == [] {
      assert |multiset(r2)| == 0;
    } else {
      HeadStep(r1, r2, cmp);
      TailsAllTie(r1, r2, cmp);
      StableSortIsUnique(r1[1..], r2[1..], cmp);
      assert r1 == [r1[0]] + r1[1..] && r2 == [r2[0]] + r2[1..];
    }
  }
}
