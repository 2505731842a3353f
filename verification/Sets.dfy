/** Cardinalities. */
module Sets {

  lemma SubsetSize<T>(a: set<T>, b: set<T>)
    requires a <= b
    ensures |a| <= |b|
  {
    assert b == a + (b - a);
  }

  lemma UnionSize<T>(a: set<T>, b: set<T>, c: set<T>)
    ensures |a + b + c| <= |a| + |b| + |c|
  {
    assert |a + b| <= |a| + |b|;
  }

  function Elements<T(==)>(s: seq<T>): set<T> {
    set x | x in s
  }

  /** A sequence without repeats has as many elements as places. */
  lemma {:induction false} SeqSize<T(!new)>(s: seq<T>)
    requires forall i, j :: 0 <= i < j < |s| ==> s[i] != s[j]
    ensures |Elements(s)| == |s|
  {
    if s == [] {
    } else {
      var front := s[..|s| - 1];
      SeqSize(front);
      assert s == front + [s[|s| - 1]];
      assert Elements(s) == Elements(front) + {s[|s| - 1]};
    }
  }
}
