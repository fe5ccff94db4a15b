/** Sequences of distinct integers: when two of them hold the same values, and how many. */
module IdSeqs {

  predicate Distinct(s: seq<int>) {
    forall i, j | 0 <= i < j < |s| :: s[i] != s[j]
  }

  lemma {:induction false} DistinctCount(s: seq<int>)
    requires Distinct(s)
    ensures |set x | x in s| == |s|
  {
    if s != [] {
      var front, last := s[..|s| - 1], s[|s| - 1];
      DistinctCount(front);
      assert s == front + [last];
      assert (set x | x in s) == (set x | x in front) + {last};
    }
  }

  lemma SameValuesSameLength(a: seq<int>, b: seq<int>)
    requires Distinct(a) && Distinct(b)
    requires forall x :: x in a <==> x in b
    ensures |a| == |b|
  {
    DistinctCount(a);
    DistinctCount(b);
    assert (set x | x in a) == (set x | x in b);
  }

  lemma SubsetCount(a: set<int>, b: set<int>)
    requires a <= b
    ensures |a| <= |b|
  {
    assert b == a + (b - a);
  }
}
