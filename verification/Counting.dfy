/** Sizes of finite sets and of sequences without repetition. */
module Counting {

  function Upto(n: nat): (s: set<nat>)
    ensures |s| == n
    ensures forall i :: i in s <==> 0 <= i < n
  {
    if n == 0 then {} else Upto(n - 1) + {n - 1}
  }

  predicate Distinct<T(==)>(s: seq<T>) {
    forall a, b :: 0 <= a < b < |s| ==> s[a] != s[b]
  }

  function Elements<T(!new)>(s: seq<T>): (e: set<T>)
    ensures forall x :: x in e <==> x in s
  {
    if s == [] then {} else Elements(s[..|s| - 1]) + {s[|s| - 1]}
  }

  lemma {:induction false} DistinctSize<T(!new)>(s: seq<T>)
    requires Distinct(s)
    ensures |Elements(s)| == |s|
  {
    if s != [] {
      var front, last := s[..|s| - 1], s[|s| - 1];
      DistinctSize(front);
      assert last !in front;
    }
  }

  lemma SubsetSize<T>(a: set<T>, b: set<T>)
    requires a <= b
    ensures |a| <= |b|
    ensures |a| == |b| ==> a == b
  {
    assert b == a + (b - a);
    assert |b| == |a| + |b - a|;
  }

  lemma {:induction false} DistinctCounts<T(!new)>(s: seq<T>)
    requires Distinct(s)
    ensures forall x :: multiset(s)[x] == if x in s then 1 else 0
  {
    if s != [] {
      var front, last := s[..|s| - 1], s[|s| - 1];
      assert s == front + [last];
      DistinctCounts(front);
      forall x ensures multiset(s)[x] == if x in s then 1 else 0 {
        assert multiset(s)[x] == multiset(front)[x] + (if x == last then 1 else 0);
        assert last !in front;
      }
    }
  }

  /** Lists without repetition are permutations of each other exactly when they are of one length, one within the other. */
  lemma {:induction false} SamePermutation<T(!new)>(s: seq<T>, t: seq<T>)
    requires Distinct(s) && Distinct(t)
    ensures multiset(s) == multiset(t) <==> |s| == |t| && forall k :: 0 <= k < |s| ==> s[k] in t
  {
    DistinctSize(s);
    DistinctSize(t);
    DistinctCounts(s);
    DistinctCounts(t);
    hide Distinct, Elements;
    if |s| == |t| && forall k :: 0 <= k < |s| ==> s[k] in t {
      SubsetSize(Elements(s), Elements(t));
      forall x ensures multiset(s)[x] == multiset(t)[x] {
        assert x in Elements(s) <==> x in Elements(t);
      }
    }
    if multiset(s) == multiset(t) {
      assert |s| == |multiset(s)| == |multiset(t)| == |t|;
      forall k | 0 <= k < |s| ensures s[k] in t {
        assert s[k] in multiset(s);
      }
    }
  }
}
