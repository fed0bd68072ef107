/** Counting the members of sequences and sets. */
module Counting {

  function Members<T>(s: seq<T>): set<T> {
    set k | 0 <= k < |s| :: s[k]
  }

  predicate Distinct<T(==)>(s: seq<T>) {
    forall j, k :: 0 <= j < k < |s| ==> s[j] != s[k]
  }

  lemma MembersGrow<T>(s: seq<T>, x: T)
    ensures Members(s + [x]) == Members(s) + {x}
  {
    forall y | y in Members(s) + {x} ensures y in Members(s + [x]) {
      if y == x {
        assert (s + [x])[|s|] == y;
      } else {
        var k :| 0 <= k < |s| && s[k] == y;
        assert (s + [x])[k] == y;
      }
    }
  }

  lemma {:induction false} CountDistinct<T>(s: seq<T>)
    requires Distinct(s)
    ensures |Members(s)| == |s|
  {
    if s == [] {
      assert Members(s) == {};
    } else {
      var front, last := s[..|s| - 1], s[|s| - 1];
      CountDistinct(front);
      assert s == front + [last];
      MembersGrow(front, last);
      assert last !in Members(front);
    }
  }

  lemma {:induction false} SubsetIsNoLarger<T>(a: set<T>, b: set<T>)
    requires a <= b
    ensures |a| <= |b|
  {
    if a != {} {
      var x :| x in a;
      SubsetIsNoLarger(a - {x}, b - {x});
    }
  }

  lemma SubsetIsSmaller<T>(a: set<T>, b: set<T>)
    requires a < b
    ensures |a| < |b|
  {
    assert b - a != {};
    var x :| x in b - a;
    SubsetIsNoLarger(a, b - {x});
  }

  function Below(n: nat): (s: set<nat>)
    ensures |s| == n && forall i: nat :: i in s <==> i < n
  {
    if n == 0 then {} else Below(n - 1) + {n - 1}
  }

  /** Distinct numbers below `n` are at most `n`, and `n` only if they are all. */
  lemma DistinctAreFew(s: seq<nat>, n: nat)
    requires Distinct(s) && forall k :: 0 <= k < |s| ==> s[k] < n
    ensures |s| <= n && ((forall i: nat :: i < n ==> i in s) ==> |s| == n)
  {
    CountDistinct(s);
    assert Members(s) <= Below(n);
    SubsetIsNoLarger(Members(s), Below(n));
    if forall i: nat :: i < n ==> i in s {
      forall i | i in Below(n) ensures i in Members(s) {
        assert i in s;
      }
      SubsetIsNoLarger(Below(n), Members(s));
    }
  }

  function Min(a: nat, b: nat): nat {
    if a <= b then a else b
  }
}
