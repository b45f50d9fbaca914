/**
 * Sequence counterparts of the JavaScript array methods the store and the views use:
 * `map`, `filter`, `find` and the spread `[...a, ...b]` (sequence concatenation).
 */
module Seqs {
  import opened Options

  /** `s.map(f)`. */
  function Map<A, B>(s: seq<A>, f: A -> B): (r: seq<B>)
    ensures |r| == |s|
    ensures forall i :: 0 <= i < |s| ==> r[i] == f(s[i])
  {
    if s == [] then [] else [f(s[0])] + Map(s[1..], f)
  }

  /** `s.filter(p)`: the elements satisfying `p`, in their original order. */
  function Filter<T(!new)>(s: seq<T>, p: T -> bool): (r: seq<T>)
    ensures |r| <= |s|
    ensures forall x :: x in r <==> x in s && p(x)
  {
    if s == [] then [] else (if p(s[0]) then [s[0]] else []) + Filter(s[1..], p)
  }

  /** The position of the first element satisfying `p`, if any (`s.findIndex(p)`). */
  function FindIndex<T(!new)>(s: seq<T>, p: T -> bool): (r: Option<nat>)
    ensures r.None? <==> forall x :: x in s ==> !p(x)
    ensures r.Some? ==> r.value < |s| && p(s[r.value]) && forall j :: 0 <= j < r.value ==> !p(s[j])
  {
    if s == [] then None
    else if p(s[0]) then Some(0)
    else
      match FindIndex(s[1..], p)
      case None => None
      case Some(i) => Some(i + 1)
  }

  /** `s.find(p)`: the first element satisfying `p`, if any. */
  function Find<T(!new)>(s: seq<T>, p: T -> bool): (r: Option<T>)
    ensures r.None? <==> forall x :: x in s ==> !p(x)
    ensures r.Some? ==> r.value in s && p(r.value)
    ensures r.Some? ==> exists k :: 0 <= k < |s| && s[k] == r.value && forall j :: 0 <= j < k ==> !p(s[j])
  {
    match FindIndex(s, p)
    case None => None
    case Some(i) => Some(s[i])
  }

  /** No element occurs twice. */
  predicate Distinct<T(==)>(s: seq<T>) {
    forall i, j :: 0 <= i < j < |s| ==> s[i] != s[j]
  }

  /** Mapping distributes over concatenation. */
  lemma {:induction false} MapConcat<A, B>(a: seq<A>, b: seq<A>, f: A -> B)
    ensures Map(a + b, f) == Map(a, f) + Map(b, f)
  {
    if a == [] {
      assert a + b == b;
    } else {
      assert (a + b)[1..] == a[1..] + b;
      MapConcat(a[1..], b, f);
    }
  }

  /**
   * Filtering distributes over concatenation. Together with the value on a one-element
   * sequence this says that `Filter` keeps the selected elements in their original order.
   */
  lemma {:induction false} FilterConcat<T(!new)>(a: seq<T>, b: seq<T>, p: T -> bool)
    ensures Filter(a + b, p) == Filter(a, p) + Filter(b, p)
  {
    if a == [] {
      assert a + b == b;
    } else {
      assert (a + b)[1..] == a[1..] + b;
      FilterConcat(a[1..], b, p);
    }
  }

  /** A filter that keeps every element returns its input. */
  lemma {:induction false} FilterKeepsAll<T(!new)>(s: seq<T>, p: T -> bool)
    requires forall x :: x in s ==> p(x)
    ensures Filter(s, p) == s
  {
    if s != [] {
      FilterKeepsAll(s[1..], p);
    }
  }

  /** A filter that rejects every element returns the empty sequence. */
  lemma FilterDropsAll<T(!new)>(s: seq<T>, p: T -> bool)
    requires forall x :: x in s ==> !p(x)
    ensures Filter(s, p) == []
  {
    if Filter(s, p) != [] {
      assert Filter(s, p)[0] in Filter(s, p);
    }
  }

  /** Two predicates that agree on the elements of `s` filter it alike. */
  lemma {:induction false} FilterCongruent<T(!new)>(s: seq<T>, p: T -> bool, q: T -> bool)
    requires forall x :: x in s ==> p(x) == q(x)
    ensures Filter(s, p) == Filter(s, q)
  {
    if s != [] {
      FilterCongruent(s[1..], p, q);
    }
  }

  /** Filtering twice is filtering once by the conjunction `pq` of the two predicates. */
  lemma {:induction false} FilterFilter<T(!new)>(s: seq<T>, p: T -> bool, q: T -> bool, pq: T -> bool)
    requires forall x :: pq(x) == (p(x) && q(x))
    ensures Filter(Filter(s, p), q) == Filter(s, pq)
  {
    if s != [] {
      FilterFilter(s[1..], p, q, pq);
      if p(s[0]) {
        assert Filter(s, p) == [s[0]] + Filter(s[1..], p);
        FilterConcat([s[0]], Filter(s[1..], p), q);
        assert Filter([s[0]], q) == (if q(s[0]) then [s[0]] else []) + Filter([s[0]][1..], q);
      } else {
        assert Filter(s, p) == Filter(s[1..], p);
      }
    }
  }

  /** Filtering is idempotent. */
  lemma FilterIdempotent<T(!new)>(s: seq<T>, p: T -> bool)
    ensures Filter(Filter(s, p), p) == Filter(s, p)
  {
    FilterKeepsAll(Filter(s, p), p);
  }

  /** Filtering keeps a sequence free of duplicates. */
  lemma {:induction false} FilterDistinct<T(!new)>(s: seq<T>, p: T -> bool)
    requires Distinct(s)
    ensures Distinct(Filter(s, p))
  {
    if s != [] {
      FilterDistinct(s[1..], p);
    }
  }

  /** The image of an element is in the image of the sequence. */
  lemma MapMember<A, B>(s: seq<A>, f: A -> B, x: A)
    requires x in s
    ensures f(x) in Map(s, f)
  {
    var k :| 0 <= k < |s| && s[k] == x;
    assert Map(s, f)[k] == f(x);
  }

  /** Filtering keeps the images of the elements free of duplicates. */
  lemma {:induction false} FilterMapDistinct<A(!new), B>(s: seq<A>, p: A -> bool, f: A -> B)
    requires Distinct(Map(s, f))
    ensures Distinct(Map(Filter(s, p), f))
  {
    if s != [] {
      var x, t := s[0], s[1..];
      assert s == [x] + t;
      MapConcat([x], t, f);
      assert Map([x], f) == [f(x)];
      assert Map(s, f)[1..] == Map(t, f);
      FilterMapDistinct(t, p, f);
      FilterConcat([x], t, p);
      assert Filter([x], p) == if p(x) then [x] else [];
      MapConcat(Filter([x], p), Filter(t, p), f);
      assert f(x) !in Map(Filter(t, p), f) by {
        if f(x) in Map(Filter(t, p), f) {
          var k :| 0 <= k < |Filter(t, p)| && Map(Filter(t, p), f)[k] == f(x);
          MapMember(t, f, Filter(t, p)[k]);
        }
      }
    }
  }
}
