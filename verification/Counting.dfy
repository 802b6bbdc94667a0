/** Cardinalities of finite sets. */
module Counting {
  lemma {:induction false} SubsetCount<T>(a: set<T>, b: set<T>)
    requires a <= b
    ensures |a| <= |b|
  {
    if a != {} {
      var x :| x in a;
      SubsetCount(a - {x}, b - {x});
    }
  }

  /** A set covered by two others is no larger than both together. */
  lemma CoverCount<T>(a: set<T>, b: set<T>, c: set<T>)
    requires a <= b + c
    ensures |a| <= |b| + |c|
  {
    SubsetCount(a, b + c);
    SubsetCount(c - b, c);
    assert b + c == b + (c - b);
  }

  lemma SubsetThrough<T>(a: set<T>, b: set<T>, c: set<T>)
    requires a <= b && b <= c
    ensures a <= c
  {
  }

  lemma CoverBound<T>(a: set<T>, b: set<T>, b': set<T>, c: set<T>, n: nat)
    requires a <= b + c && b <= b' && |b'| + |c| <= n
    ensures |a| <= n
  {
    SubsetCount(b, b');
    CoverCount(a, b, c);
  }

  lemma {:induction false} ElementCount<T>(s: seq<T>)
    ensures |set x | x in s| <= |s|
    ensures (forall i, j :: 0 <= i < j < |s| ==> s[i] != s[j]) ==> |set x | x in s| == |s|
  {
    if s != [] {
      var n := |s| - 1;
      ElementCount(s[..n]);
      assert (set x | x in s) == (set x | x in s[..n]) + {s[n]};
    }
  }
}
