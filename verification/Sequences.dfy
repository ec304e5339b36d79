// Helpers on sequences that several components use.
module Sequences {

  function Sum(s: seq<real>): real {
    if s == [] then 0.0 else Sum(s[..|s| - 1]) + s[|s| - 1]
  }

  function Mean(s: seq<real>): real
    requires s != []
  {
    Sum(s) / |s| as real
  }

  // m is the mean of s.
  predicate MeanOf(s: seq<real>, m: real) {
    s != [] && m * |s| as real == Sum(s)
  }

  lemma MeanIsMean(s: seq<real>)
    requires s != []
    ensures MeanOf(s, Mean(s))
  {
  }

  // Sum is determined by this: nothing, one number, and a concatenation.
  lemma {:induction false} SumConcat(a: seq<real>, b: seq<real>)
    ensures Sum([]) == 0.0
    ensures Sum(a + b) == Sum(a) + Sum(b)
    ensures |a| == 1 ==> Sum(a) == a[0]
  {
    if b == [] {
      assert a + b == a;
    } else {
      var init, last := b[..|b| - 1], b[|b| - 1];
      SumConcat(a, init);
      assert (a + b)[..|a + b| - 1] == a + init;
    }
    if |a| == 1 {
      assert Sum(a[..0]) == 0.0;
    }
  }

  // Python's s[:n].
  function Take<T>(s: seq<T>, n: nat): seq<T> {
    if n < |s| then s[..n] else s
  }

  ghost predicate Distinct<T>(s: seq<T>) {
    forall i, j :: 0 <= i < j < |s| ==> s[i] != s[j]
  }

  // In a sequence without repetitions every element occurs once ...
  lemma {:induction false} DistinctOnce<T>(s: seq<T>, x: T)
    requires Distinct(s)
    ensures multiset(s)[x] <= 1
  {
    if s != [] {
      var init, last := s[..|s| - 1], s[|s| - 1];
      DistinctOnce(init, x);
      assert s == init + [last];
      if last == x {
        assert x !in init;
      }
    }
  }

  lemma TwiceInMultiset<T>(s: seq<T>, i: nat, j: nat)
    requires i < j < |s| && s[i] == s[j]
    ensures multiset(s)[s[i]] >= 2
  {
    assert s == s[..j] + [s[j]] + s[j + 1..];
    assert s[i] in s[..j];
  }

  // ... so a permutation of it has no repetitions either.
  lemma PermutationIsDistinct<T>(s: seq<T>, t: seq<T>)
    requires Distinct(s) && multiset(t) == multiset(s)
    ensures Distinct(t)
  {
    forall i, j | 0 <= i < j < |t|
      ensures t[i] != t[j]
    {
      if t[i] == t[j] {
        DistinctOnce(s, t[i]);
        TwiceInMultiset(t, i, j);
        assert false;
      }
    }
  }

  function Total(s: seq<int>): int {
    if s == [] then 0 else Total(s[..|s| - 1]) + s[|s| - 1]
  }

  // Non-negative numbers add up to zero exactly when each of them is zero.
  lemma {:induction false} TotalIsZeroIff(s: seq<int>)
    requires forall i :: 0 <= i < |s| ==> s[i] >= 0
    ensures Total(s) >= 0
    ensures Total(s) == 0 <==> forall i :: 0 <= i < |s| ==> s[i] == 0
  {
    if s != [] {
      var init := s[..|s| - 1];
      TotalIsZeroIff(init);
      assert forall i :: 0 <= i < |init| ==> s[i] == init[i];
    }
  }

  // A quantity that moves by `moves` step by step ends at its start plus their total.
  lemma {:induction false} TotalOfMoves(values: seq<int>, moves: seq<int>)
    requires |values| == |moves| + 1 && forall k :: 0 <= k < |moves| ==> values[k + 1] == values[k] + moves[k]
    ensures values[|moves|] == values[0] + Total(moves)
  {
    if moves != [] {
      var n := |moves| - 1;
      TotalOfMoves(values[..n + 1], moves[..n]);
      assert values[n + 1] == values[n] + moves[n];
    }
  }

  lemma {:induction false} TotalOfSums(s: seq<int>, a: seq<int>, b: seq<int>)
    requires |s| == |a| == |b| && forall k :: 0 <= k < |s| ==> s[k] == a[k] + b[k]
    ensures Total(s) == Total(a) + Total(b)
  {
    if s != [] {
      TotalOfSums(s[..|s| - 1], a[..|s| - 1], b[..|s| - 1]);
    }
  }
}
