/**
 * Sequence operations the core uses through `Array.prototype`: `filter`, and
 * `sort` with a comparator. JavaScript's sort is stable, so for a comparator
 * that is a total preorder its result is the stable sort modelled here by
 * insertion: sorted, a permutation of the input, and keeping the input order
 * of elements the comparator considers equal.
 */
module Seqs {
  import opened Text

  /** `s.filter(p)`. */
  function Filter<T>(s: seq<T>, p: T -> bool): (r: seq<T>)
    ensures |r| <= |s|
  {
    if s == [] then [] else (if p(s[0]) then [s[0]] else []) + Filter(s[1..], p)
  }

  /** The filter keeps exactly the elements that satisfy the predicate. */
  lemma {:induction false} FilterMembers<T>(s: seq<T>, p: T -> bool)
    ensures forall k :: 0 <= k < |Filter(s, p)| ==> Filter(s, p)[k] in s && p(Filter(s, p)[k])
    ensures forall k :: 0 <= k < |s| && p(s[k]) ==> s[k] in Filter(s, p)
  {
    if s != [] {
      FilterMembers(s[1..], p);
      var r := Filter(s, p);
      var t := Filter(s[1..], p);
      forall k | 0 <= k < |r| ensures r[k] in s && p(r[k]) {
        if p(s[0]) && k == 0 { } else {
          var j := if p(s[0]) then k - 1 else k;
          assert r[k] == t[j];
        }
      }
      forall k | 0 <= k < |s| && p(s[k]) ensures s[k] in r {
        if k > 0 { assert s[k] == s[1..][k - 1]; }
      }
    }
  }

  /** An element of the filter is an element of the input that satisfies the predicate. */
  lemma FilterIn<T>(s: seq<T>, p: T -> bool, x: T)
    requires x in Filter(s, p)
    ensures x in s && p(x)
  {
    FilterMembers(s, p);
  }

  lemma {:induction false} FilterConcat<T>(a: seq<T>, b: seq<T>, p: T -> bool)
    ensures Filter(a + b, p) == Filter(a, p) + Filter(b, p)
  {
    if a == [] {
      assert a + b == b;
    } else {
      var h := if p(a[0]) then [a[0]] else [];
      assert (a + b)[0] == a[0] && (a + b)[1..] == a[1..] + b;
      FilterConcat(a[1..], b, p);
      assert Filter(a + b, p) == h + (Filter(a[1..], p) + Filter(b, p));
      assert Filter(a, p) == h + Filter(a[1..], p);
    }
  }

  lemma FilterAppend<T>(a: seq<T>, x: T, p: T -> bool)
    ensures Filter(a + [x], p) == Filter(a, p) + (if p(x) then [x] else [])
  {
    FilterConcat(a, [x], p);
    assert Filter([x], p) == (if p(x) then [x] else []) + Filter([x][1..], p);
  }

  /** Filters by predicates that agree on every element of the sequence are equal. */
  lemma {:induction false} FilterExt<T>(s: seq<T>, p: T -> bool, q: T -> bool)
    requires forall k :: 0 <= k < |s| ==> p(s[k]) == q(s[k])
    ensures Filter(s, p) == Filter(s, q)
  {
    if s != [] {
      FilterExt(s[1..], p, q);
    }
  }

  /** Filtering keeps the order of the kept elements: it is a multiset subset of the input. */
  lemma {:induction false} FilterMultiset<T>(s: seq<T>, p: T -> bool)
    ensures multiset(Filter(s, p)) <= multiset(s)
  {
    if s != [] {
      FilterMultiset(s[1..], p);
      assert s == [s[0]] + s[1..];
    }
  }

  /** Filtering with a predicate that holds everywhere changes nothing. */
  lemma {:induction false} FilterAll<T>(s: seq<T>, p: T -> bool)
    requires forall k :: 0 <= k < |s| ==> p(s[k])
    ensures Filter(s, p) == s
  {
    if s != [] {
      FilterAll(s[1..], p);
      assert s == [s[0]] + s[1..];
    }
  }

  /** Filtering with a predicate that holds nowhere gives the empty sequence. */
  lemma {:induction false} FilterNone<T>(s: seq<T>, p: T -> bool)
    requires forall k :: 0 <= k < |s| ==> !p(s[k])
    ensures Filter(s, p) == []
  {
    if s != [] { FilterNone(s[1..], p); }
  }

  /** `s.findIndex(p)`, with `None` for -1: the first position whose element satisfies `p`. */
  function FindIndex<T>(s: seq<T>, p: T -> bool): (r: Option<nat>)
    ensures r.None? <==> forall k :: 0 <= k < |s| ==> !p(s[k])
    ensures r.Some? ==> r.value < |s| && p(s[r.value]) && forall k :: 0 <= k < r.value ==> !p(s[k])
  {
    if s == [] then None
    else if p(s[0]) then Some(0)
    else match FindIndex(s[1..], p)
      case None => None
      case Some(i) => Some(i + 1)
  }

  /** Filtering twice is filtering once by the conjunction. */
  lemma {:induction false} FilterFilter<T>(s: seq<T>, p: T -> bool, q: T -> bool, pq: T -> bool)
    requires forall x :: pq(x) == (p(x) && q(x))
    ensures Filter(Filter(s, p), q) == Filter(s, pq)
  {
    if s != [] {
      FilterFilter(s[1..], p, q, pq);
      var t := Filter(s, p);
      if p(s[0]) {
        assert t == [s[0]] + Filter(s[1..], p);
        assert t[0] == s[0] && t[1..] == Filter(s[1..], p);
        assert Filter(t, q) == (if q(s[0]) then [s[0]] else []) + Filter(t[1..], q);
      } else {
        assert t == Filter(s[1..], p);
      }
    }
  }

  // ---------------------------------------------------------------------------
  // Stable sort by a comparator
  // ---------------------------------------------------------------------------

  /** A comparator `le(a, b)` ("a may precede b") that is total and transitive. */
  ghost predicate TotalPreorder<T(!new)>(le: (T, T) -> bool) {
    && (forall a, b {:trigger TotalAt(le, a, b)} :: TotalAt(le, a, b))
    && (forall a, b, c {:trigger TransAt(le, a, b, c)} :: TransAt(le, a, b, c))
  }

  /** Totality of `le` at one pair; quantified over only where a proof names the pair. */
  predicate TotalAt<T>(le: (T, T) -> bool, a: T, b: T) {
    le(a, b) || le(b, a)
  }

  /** Transitivity of `le` at one triple. */
  predicate TransAt<T>(le: (T, T) -> bool, a: T, b: T, c: T) {
    le(a, b) && le(b, c) ==> le(a, c)
  }

  ghost predicate SortedBy<T>(s: seq<T>, le: (T, T) -> bool) {
    forall i, j :: 0 <= i < j < |s| ==> le(s[i], s[j])
  }

  /** Elements the comparator cannot tell apart. */
  predicate Equiv<T>(le: (T, T) -> bool, a: T, b: T) {
    le(a, b) && le(b, a)
  }

  /** The elements equivalent to `c`, as a filter predicate. */
  function SameClass<T>(le: (T, T) -> bool, c: T): T -> bool {
    y => Equiv(le, y, c)
  }

  /** Inserts `x` after every element that may precede it. */
  function Insert<T>(x: T, s: seq<T>, le: (T, T) -> bool): (r: seq<T>)
    ensures |r| == |s| + 1
  {
    if s == [] then [x]
    else if le(s[0], x) then [s[0]] + Insert(x, s[1..], le)
    else [x] + s
  }

  lemma {:induction false} InsertMultiset<T>(x: T, s: seq<T>, le: (T, T) -> bool)
    ensures multiset(Insert(x, s, le)) == multiset(s) + multiset{x}
  {
    if s != [] && le(s[0], x) {
      InsertMultiset(x, s[1..], le);
      assert s == [s[0]] + s[1..];
    }
  }

  /** `s.slice().sort(cmp)` for a comparator whose `cmp(a, b) <= 0` is `le(a, b)`. */
  function SortBy<T>(s: seq<T>, le: (T, T) -> bool): (r: seq<T>)
    ensures |r| == |s|
  {
    if s == [] then []
    else Insert(s[|s| - 1], SortBy(s[..|s| - 1], le), le)
  }

  /** The sort's result is a permutation of its input. */
  lemma {:induction false} SortByPermutation<T>(s: seq<T>, le: (T, T) -> bool)
    ensures multiset(SortBy(s, le)) == multiset(s)
  {
    if s != [] {
      SortByPermutation(s[..|s| - 1], le);
      InsertMultiset(s[|s| - 1], SortBy(s[..|s| - 1], le), le);
      assert s == s[..|s| - 1] + [s[|s| - 1]];
    }
  }

  lemma {:induction false} InsertSorted<T(!new)>(x: T, s: seq<T>, le: (T, T) -> bool)
    requires TotalPreorder(le) && SortedBy(s, le)
    ensures SortedBy(Insert(x, s, le), le)
  {
    if s != [] && !le(s[0], x) {
      assert TotalAt(le, s[0], x);
      forall k | 0 <= k < |s| ensures le(x, s[k]) {
        assert TransAt(le, x, s[0], s[k]);
      }
    } else if s != [] {
      InsertSorted(x, s[1..], le);
      InsertHeadLeast(x, s, le);
      assert Insert(x, s, le) == [s[0]] + Insert(x, s[1..], le);
    }
  }

  /** When `x` goes after the head, the head may still precede everything in the rest of the result. */
  lemma InsertHeadLeast<T(!new)>(x: T, s: seq<T>, le: (T, T) -> bool)
    requires SortedBy(s, le) && s != [] && le(s[0], x)
    ensures forall y :: y in Insert(x, s[1..], le) ==> le(s[0], y)
  {
    var t := Insert(x, s[1..], le);
    InsertMultiset(x, s[1..], le);
    forall y | y in t ensures le(s[0], y) {
      assert y in multiset(t);
      assert y in multiset(s[1..]) + multiset{x};
      if y in multiset(s[1..]) {
        var k :| 0 <= k < |s[1..]| && s[1..][k] == y;
        assert s[k + 1] == y;
      }
    }
  }

  /** The sort's result is ordered by the comparator. */
  lemma {:induction false} SortBySorted<T(!new)>(s: seq<T>, le: (T, T) -> bool)
    requires TotalPreorder(le)
    ensures SortedBy(SortBy(s, le), le)
  {
    if s != [] {
      SortBySorted(s[..|s| - 1], le);
      InsertSorted(s[|s| - 1], SortBy(s[..|s| - 1], le), le);
    }
  }

  lemma {:induction false} InsertStable<T(!new)>(x: T, s: seq<T>, le: (T, T) -> bool, c: T)
    requires TotalPreorder(le) && SortedBy(s, le)
    ensures Filter(Insert(x, s, le), SameClass(le, c))
         == Filter(s, SameClass(le, c)) + (if Equiv(le, x, c) then [x] else [])
  {
    var p := SameClass(le, c);
    if s == [] {
      FilterAppend([], x, p);
      assert [] + [x] == [x];
    } else if le(s[0], x) {
      assert SortedBy(s[1..], le);
      InsertStable(x, s[1..], le, c);
      assert Insert(x, s, le) == [s[0]] + Insert(x, s[1..], le);
      assert s == [s[0]] + s[1..];
      FilterConsStep(s[0], Insert(x, s[1..], le), s[1..], p, if Equiv(le, x, c) then [x] else []);
    } else {
      assert Insert(x, s, le) == [x] + s;
      InsertFront(x, s, le, c);
    }
  }

  /** Putting the same element in front of two lists keeps the difference of their filters. */
  lemma FilterConsStep<T>(h: T, t: seq<T>, u: seq<T>, p: T -> bool, extra: seq<T>)
    requires Filter(t, p) == Filter(u, p) + extra
    ensures Filter([h] + t, p) == Filter([h] + u, p) + extra
  {
    var head: seq<T> := if p(h) then [h] else [];
    assert ([h] + t)[0] == h && ([h] + t)[1..] == t;
    assert ([h] + u)[0] == h && ([h] + u)[1..] == u;
    assert Filter([h] + t, p) == head + Filter(t, p);
    assert Filter([h] + u, p) == head + Filter(u, p);
    ConcatAssoc(head, Filter(u, p), extra);
  }

  lemma ConcatAssoc<T>(a: seq<T>, b: seq<T>, c: seq<T>)
    ensures a + (b + c) == (a + b) + c
  {
  }

  /** `x` inserted in front of a sorted list it may not follow joins no class after the list's elements. */
  lemma InsertFront<T(!new)>(x: T, s: seq<T>, le: (T, T) -> bool, c: T)
    requires TotalPreorder(le) && SortedBy(s, le) && s != [] && !le(s[0], x)
    ensures Filter([x] + s, SameClass(le, c)) == Filter(s, SameClass(le, c)) + (if Equiv(le, x, c) then [x] else [])
  {
    var p := SameClass(le, c);
    FilterConcat([x], s, p);
    FilterAppend([], x, p);
    assert [] + [x] == [x];
    if p(x) {
      forall k | 0 <= k < |s| ensures !p(s[k]) {
        NotEquivAfter(x, s, le, c, k);
      }
      FilterNone(s, p);
    }
  }

  lemma NotEquivAfter<T(!new)>(x: T, s: seq<T>, le: (T, T) -> bool, c: T, k: nat)
    requires TotalPreorder(le) && SortedBy(s, le)
    requires k < |s| && !le(s[0], x) && Equiv(le, x, c)
    ensures !Equiv(le, s[k], c)
  {
    assert TransAt(le, s[k], c, x);
    if k > 0 { assert TransAt(le, s[0], s[k], x); }
  }

  /** The sort is stable: elements the comparator considers equal keep their input order. */
  lemma {:induction false} SortByStable<T(!new)>(s: seq<T>, le: (T, T) -> bool, c: T)
    requires TotalPreorder(le)
    ensures Filter(SortBy(s, le), SameClass(le, c)) == Filter(s, SameClass(le, c))
  {
    if s != [] {
      var init, last := s[..|s| - 1], s[|s| - 1];
      SortByStable(init, le, c);
      SortBySorted(init, le);
      InsertStable(last, SortBy(init, le), le, c);
      assert s == init + [last];
      FilterAppend(init, last, SameClass(le, c));
    }
  }

  /** The sort keeps the number of elements satisfying any predicate. */
  lemma {:induction false} SortByFilterCount<T>(s: seq<T>, le: (T, T) -> bool, p: T -> bool)
    ensures |Filter(SortBy(s, le), p)| == |Filter(s, p)|
  {
    if s != [] {
      var init, last := s[..|s| - 1], s[|s| - 1];
      SortByFilterCount(init, le, p);
      InsertFilterCount(last, SortBy(init, le), le, p);
      assert s == init + [last];
      FilterAppend(init, last, p);
    }
  }

  lemma {:induction false} InsertFilterCount<T>(x: T, s: seq<T>, le: (T, T) -> bool, p: T -> bool)
    ensures |Filter(Insert(x, s, le), p)| == |Filter(s, p)| + (if p(x) then 1 else 0)
  {
    if s != [] && le(s[0], x) {
      InsertFilterCount(x, s[1..], le, p);
      assert Insert(x, s, le)[1..] == Insert(x, s[1..], le);
    } else if s != [] {
      assert Insert(x, s, le)[1..] == s;
    }
  }

  /** The sort's result holds the same elements as its input. */
  lemma SortByMember<T>(s: seq<T>, le: (T, T) -> bool, x: T)
    ensures x in SortBy(s, le) <==> x in s
  {
    SortByPermutation(s, le);
    assert x in SortBy(s, le) <==> x in multiset(SortBy(s, le));
  }

  /**
   * The first `n` elements of the sorted sequence are `n` least ones: every
   * element occurrence left out is no smaller than any element kept.
   */
  lemma SortByPrefixLeast<T(!new)>(s: seq<T>, le: (T, T) -> bool, n: nat)
    requires TotalPreorder(le) && n <= |s|
    ensures multiset(SortBy(s, le)[..n]) <= multiset(s)
    ensures forall x :: multiset(SortBy(s, le)[..n])[x] < multiset(s)[x] ==>
      forall j :: 0 <= j < n ==> le(SortBy(s, le)[j], x)
  {
    var all := SortBy(s, le);
    SortBySorted(s, le);
    SortByPermutation(s, le);
    SortedPrefixLeast(all, le, n);
  }

  /** In a sorted sequence, every occurrence past the first `n` is no smaller than the first `n`. */
  lemma SortedPrefixLeast<T>(all: seq<T>, le: (T, T) -> bool, n: nat)
    requires SortedBy(all, le) && n <= |all|
    ensures multiset(all[..n]) <= multiset(all)
    ensures forall x :: multiset(all[..n])[x] < multiset(all)[x] ==> forall j :: 0 <= j < n ==> le(all[j], x)
  {
    assert all == all[..n] + all[n..];
    assert multiset(all) == multiset(all[..n]) + multiset(all[n..]);
    forall x | multiset(all[..n])[x] < multiset(all)[x]
      ensures forall j :: 0 <= j < n ==> le(all[j], x)
    {
      assert x in multiset(all[n..]);
      var k :| 0 <= k < |all[n..]| && all[n..][k] == x;
      assert all[n + k] == x;
    }
  }

  /** A sequence already in order is left unchanged by the sort. */
  lemma {:induction false} SortBySortedInput<T(!new)>(s: seq<T>, le: (T, T) -> bool)
    requires TotalPreorder(le) && SortedBy(s, le)
    ensures SortBy(s, le) == s
  {
    if s != [] {
      var init, last := s[..|s| - 1], s[|s| - 1];
      SortBySortedInput(init, le);
      assert forall k :: 0 <= k < |init| ==> le(init[k], last);
      InsertAtEnd(last, init, le);
      assert s == init + [last];
    }
  }

  lemma {:induction false} InsertAtEnd<T>(x: T, s: seq<T>, le: (T, T) -> bool)
    requires forall k :: 0 <= k < |s| ==> le(s[k], x)
    ensures Insert(x, s, le) == s + [x]
  {
    if s != [] {
      InsertAtEnd(x, s[1..], le);
      assert s == [s[0]] + s[1..];
    }
  }
}
