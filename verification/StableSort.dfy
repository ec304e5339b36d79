// Python's `sorted` and `list.sort` with a key: a stable sort.  `SortBy` is one such sort and
// `StableSortUnique` shows that there is no other, so it stands for the library's.
module StableSort {

  // x goes after every element whose key is not larger.
  function Insert<T>(key: T -> real, x: T, s: seq<T>): seq<T> {
    if s == [] then [x]
    else if key(s[|s| - 1]) <= key(x) then s + [x]
    else Insert(key, x, s[..|s| - 1]) + [s[|s| - 1]]
  }

  function SortBy<T>(key: T -> real, s: seq<T>): seq<T> {
    if s == [] then [] else Insert(key, s[|s| - 1], SortBy(key, s[..|s| - 1]))
  }

  function Filter<T>(p: T -> bool, s: seq<T>): seq<T> {
    if s == [] then []
    else if p(s[|s| - 1]) then Filter(p, s[..|s| - 1]) + [s[|s| - 1]]
    else Filter(p, s[..|s| - 1])
  }

  // The elements with key k, in order.
  function WithKey<T>(key: T -> real, s: seq<T>, k: real): seq<T> {
    Filter(x => key(x) == k, s)
  }

  ghost predicate Sorted<T>(key: T -> real, s: seq<T>) {
    forall i, j :: 0 <= i < j < |s| ==> key(s[i]) <= key(s[j])
  }

  // Sorted by key, the same elements, and elements with equal keys in their original order.
  ghost predicate IsStableSort<T>(key: T -> real, s: seq<T>, r: seq<T>) {
    Sorted(key, r) && multiset(r) == multiset(s) && forall k :: WithKey(key, r, k) == WithKey(key, s, k)
  }

  lemma InsertAppend<T>(key: T -> real, x: T, s: seq<T>, y: T)
    ensures Insert(key, x, s + [y]) == if key(y) <= key(x) then s + [y] + [x] else Insert(key, x, s) + [y]
  {
    assert (s + [y])[..|s|] == s;
  }

  lemma SortAppend<T>(key: T -> real, s: seq<T>, y: T)
    ensures SortBy(key, s + [y]) == Insert(key, y, SortBy(key, s))
  {
    assert (s + [y])[..|s|] == s;
  }

  lemma FilterAppend<T>(p: T -> bool, s: seq<T>, y: T)
    ensures Filter(p, s + [y]) == if p(y) then Filter(p, s) + [y] else Filter(p, s)
  {
    assert (s + [y])[..|s|] == s;
  }

  lemma {:induction false} FilterMember<T>(p: T -> bool, s: seq<T>, x: T)
    ensures x in Filter(p, s) <==> x in s && p(x)
  {
    if s != [] {
      FilterMember(p, s[..|s| - 1], x);
      assert s == s[..|s| - 1] + [s[|s| - 1]];
    }
  }

  lemma {:induction false} FilterCount<T>(p: T -> bool, s: seq<T>, x: T)
    ensures multiset(Filter(p, s))[x] == if p(x) then multiset(s)[x] else 0
  {
    if s != [] {
      var init, last := s[..|s| - 1], s[|s| - 1];
      FilterCount(p, init, x);
      assert s == init + [last];
    }
  }

  lemma InsertLargest<T>(key: T -> real, x: T, s: seq<T>)
    requires forall y :: y in s ==> key(y) <= key(x)
    ensures Insert(key, x, s) == s + [x]
  {
    if s != [] {
      assert s[|s| - 1] in s;
    }
  }

  // What inserting does to the elements that satisfy p, in a sorted sequence.
  lemma {:induction false} FilterInsert<T>(p: T -> bool, key: T -> real, x: T, s: seq<T>)
    requires Sorted(key, s)
    ensures Filter(p, Insert(key, x, s)) == if p(x) then Insert(key, x, Filter(p, s)) else Filter(p, s)
  {
    if s == [] {
      FilterAppend(p, s, x);
      assert [] + [x] == [x];
    } else {
      var init, last := s[..|s| - 1], s[|s| - 1];
      assert s == init + [last];
      FilterAppend(p, init, last);
      if key(last) <= key(x) {
        FilterAppend(p, s, x);
        forall y | y in Filter(p, s)
          ensures key(y) <= key(x)
        {
          FilterMember(p, s, y);
        }
        InsertLargest(key, x, Filter(p, s));
      } else {
        FilterInsert(p, key, x, init);
        FilterAppend(p, Insert(key, x, init), last);
        InsertAppend(key, x, Filter(p, init), last);
      }
    }
  }

  lemma {:induction false} InsertElements<T>(key: T -> real, x: T, s: seq<T>)
    ensures multiset(Insert(key, x, s)) == multiset(s) + multiset{x}
  {
    if s != [] && key(s[|s| - 1]) > key(x) {
      var init, last := s[..|s| - 1], s[|s| - 1];
      assert s == init + [last];
      InsertElements(key, x, init);
    }
  }

  lemma SortedAppend<T>(key: T -> real, s: seq<T>, y: T)
    requires Sorted(key, s) && forall i :: 0 <= i < |s| ==> key(s[i]) <= key(y)
    ensures Sorted(key, s + [y])
  {
  }

  lemma {:induction false} InsertSorted<T>(key: T -> real, x: T, s: seq<T>)
    requires Sorted(key, s)
    ensures Sorted(key, Insert(key, x, s))
  {
    if s != [] {
      var init, last := s[..|s| - 1], s[|s| - 1];
      if key(last) <= key(x) {
        SortedAppend(key, s, x);
      } else {
        InsertSorted(key, x, init);
        InsertElements(key, x, init);
        var r := Insert(key, x, init);
        forall i | 0 <= i < |r|
          ensures key(r[i]) <= key(last)
        {
          assert r[i] in multiset(init) + multiset{x};
        }
        SortedAppend(key, r, last);
      }
    }
  }

  lemma {:induction false} SortSorts<T>(key: T -> real, s: seq<T>)
    ensures Sorted(key, SortBy(key, s)) && multiset(SortBy(key, s)) == multiset(s)
  {
    if s != [] {
      var init, last := s[..|s| - 1], s[|s| - 1];
      assert s == init + [last];
      SortSorts(key, init);
      InsertElements(key, last, SortBy(key, init));
      InsertSorted(key, last, SortBy(key, init));
    }
  }

  // An earlier element has no larger key.
  lemma SortedAt<T>(key: T -> real, s: seq<T>, i: nat, j: nat)
    requires i <= j < |SortBy(key, s)|
    ensures key(SortBy(key, s)[i]) <= key(SortBy(key, s)[j])
  {
    SortSorts(key, s);
  }

  lemma SortLength<T>(key: T -> real, s: seq<T>)
    ensures |SortBy(key, s)| == |s|
  {
    SortSorts(key, s);
    assert |multiset(SortBy(key, s))| == |multiset(s)|;
  }

  // Filtering and sorting commute.
  lemma {:induction false} FilterSort<T>(p: T -> bool, key: T -> real, s: seq<T>)
    ensures Filter(p, SortBy(key, s)) == SortBy(key, Filter(p, s))
  {
    if s != [] {
      var init, last := s[..|s| - 1], s[|s| - 1];
      FilterSort(p, key, init);
      SortSorts(key, init);
      FilterInsert(p, key, last, SortBy(key, init));
      SortAppend(key, Filter(p, init), last);
    }
  }

  // A sequence whose keys are all equal is left alone.
  lemma {:induction false} SortEqualKeys<T>(key: T -> real, s: seq<T>)
    requires forall x, y :: x in s && y in s ==> key(x) == key(y)
    ensures SortBy(key, s) == s
  {
    if s != [] {
      var init := s[..|s| - 1];
      SortEqualKeys(key, init);
      assert s == init + [s[|s| - 1]];
      InsertLargest(key, s[|s| - 1], init);
    }
  }

  lemma SortIsStable<T>(key: T -> real, s: seq<T>)
    ensures IsStableSort(key, s, SortBy(key, s))
  {
    SortSorts(key, s);
    forall k
      ensures WithKey(key, SortBy(key, s), k) == WithKey(key, s, k)
    {
      ClassKept(key, s, k);
    }
  }

  lemma ClassKept<T>(key: T -> real, s: seq<T>, k: real)
    ensures WithKey(key, SortBy(key, s), k) == WithKey(key, s, k)
  {
    var p := x => key(x) == k;
    FilterSort(p, key, s);
    forall x | x in Filter(p, s)
      ensures key(x) == k
    {
      FilterMember(p, s, x);
    }
    SortEqualKeys(key, Filter(p, s));
  }

  lemma ClassAppend<T>(key: T -> real, s: seq<T>, y: T, k: real)
    ensures WithKey(key, s + [y], k) == if key(y) == k then WithKey(key, s, k) + [y] else WithKey(key, s, k)
  {
    FilterAppend(x => key(x) == k, s, y);
  }

  lemma ClassMember<T>(key: T -> real, s: seq<T>, k: real, x: T)
    ensures x in WithKey(key, s, k) <==> x in s && key(x) == k
  {
    FilterMember(y => key(y) == k, s, x);
  }

  lemma AppendInjective<T>(a: seq<T>, x: T, b: seq<T>, y: T)
    requires a + [x] == b + [y]
    ensures a == b && x == y
  {
    assert (a + [x])[|a|] == x && (b + [y])[|b|] == y;
    assert (a + [x])[..|a|] == a && (b + [y])[..|b|] == b;
  }

  lemma LastHasLargestKey<T>(key: T -> real, s: seq<T>, x: T)
    requires Sorted(key, s) && x in s
    ensures s != [] && key(x) <= key(s[|s| - 1])
  {
  }

  // Two sorted sequences whose key classes agree end in the same element.
  lemma LastsAgree<T>(key: T -> real, a: seq<T>, b: seq<T>)
    requires Sorted(key, a) && Sorted(key, b) && a != []
    requires forall k :: WithKey(key, a, k) == WithKey(key, b, k)
    ensures b != [] && a[|a| - 1] == b[|b| - 1]
  {
    var x := a[|a| - 1];
    ClassMember(key, a, key(x), x);
    ClassMember(key, b, key(x), x);
    LastHasLargestKey(key, b, x);
    var y := b[|b| - 1];
    ClassMember(key, b, key(y), y);
    ClassMember(key, a, key(y), y);
    LastHasLargestKey(key, a, y);
    var k := key(x);
    var a', b' := a[..|a| - 1], b[..|b| - 1];
    assert a == a' + [x] && b == b' + [y];
    ClassAppend(key, a', x, k);
    ClassAppend(key, b', y, k);
    AppendInjective(WithKey(key, a', k), x, WithKey(key, b', k), y);
  }

  // ... and therefore are equal.
  lemma {:induction false} ClassesDetermine<T>(key: T -> real, a: seq<T>, b: seq<T>)
    requires Sorted(key, a) && Sorted(key, b)
    requires forall k :: WithKey(key, a, k) == WithKey(key, b, k)
    ensures a == b
  {
    if a == [] {
      if b != [] {
        LastsAgree(key, b, a);
      }
    } else {
      LastsAgree(key, a, b);
      var x := a[|a| - 1];
      var a', b' := a[..|a| - 1], b[..|b| - 1];
      assert a == a' + [x] && b == b' + [x];
      forall k
        ensures WithKey(key, a', k) == WithKey(key, b', k)
      {
        ClassAppend(key, a', x, k);
        ClassAppend(key, b', x, k);
        assert WithKey(key, a, k) == WithKey(key, b, k);
        if key(x) == k {
          AppendInjective(WithKey(key, a', k), x, WithKey(key, b', k), x);
        }
      }
      ClassesDetermine(key, a', b');
    }
  }

  // Any stable sort of s is SortBy(s).
  lemma StableSortUnique<T>(key: T -> real, s: seq<T>, r: seq<T>)
    requires IsStableSort(key, s, r)
    ensures r == SortBy(key, s)
  {
    SortIsStable(key, s);
    forall k
      ensures WithKey(key, r, k) == WithKey(key, SortBy(key, s), k)
    {
      assert WithKey(key, r, k) == WithKey(key, s, k);
    }
    ClassesDetermine(key, r, SortBy(key, s));
  }
}
