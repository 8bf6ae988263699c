/** Facts relating duplicate-freedom of a sequence to the multiplicities of its multiset. */
module Multisets {

  /** No element occurs twice. */
  predicate Distinct<T(==)>(s: seq<T>) {
    forall i, j :: 0 <= i < j < |s| ==> s[i] != s[j]
  }

  /** A sequence without duplicates holds each of its elements exactly once. */
  lemma {:induction false} DistinctMultiplicity<T>(s: seq<T>, x: T)
    requires Distinct(s)
    ensures multiset(s)[x] == if x in s then 1 else 0
  {
    if |s| > 0 {
      var t := s[1..];
      assert s == [s[0]] + t;
      assert Distinct(t) by {
        forall i, j | 0 <= i < j < |t| ensures t[i] != t[j] {
          assert t[i] == s[i + 1] && t[j] == s[j + 1];
        }
      }
      DistinctMultiplicity(t, x);
      assert s[0] !in t by {
        forall k | 0 <= k < |t| ensures t[k] != s[0] {
          assert t[k] == s[k + 1];
        }
      }
      assert multiset(s) == multiset{s[0]} + multiset(t);
    }
  }

  /** Two equal entries at different positions give their value multiplicity at least two. */
  lemma RepeatedMultiplicity<T>(s: seq<T>, i: int, j: int)
    requires 0 <= i < j < |s| && s[i] == s[j]
    ensures multiset(s)[s[i]] >= 2
  {
    assert s == s[..j] + [s[j]] + s[j + 1..];
    assert s[i] == s[..j][i];
    assert multiset(s) == multiset(s[..j]) + multiset{s[j]} + multiset(s[j + 1..]);
  }

  /** Duplicate-freedom is exactly "every multiplicity is at most one". */
  lemma DistinctIffMultiplicityAtMostOne<T>(s: seq<T>)
    ensures Distinct(s) <==> forall x :: multiset(s)[x] <= 1
  {
    if Distinct(s) {
      forall x ensures multiset(s)[x] <= 1 {
        DistinctMultiplicity(s, x);
      }
    }
    if !Distinct(s) {
      var i, j :| 0 <= i < j < |s| && s[i] == s[j];
      RepeatedMultiplicity(s, i, j);
    }
  }
}
