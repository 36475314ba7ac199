/**
 * Order-preserving filtering of sequences: the model of `Array.filter` on
 * the client and of a `WHERE` clause over the booking table.
 */
module Seqs {

  /** The elements of `s` satisfying `p`, in their original order. */
  function Filter<T(!new)>(s: seq<T>, p: T -> bool): (r: seq<T>)
    ensures |r| <= |s|
    ensures forall x :: x in r <==> x in s && p(x)
    ensures forall i :: 0 <= i < |r| ==> p(r[i])
  {
    if |s| == 0 then []
    else if p(s[0]) then [s[0]] + Filter(s[1..], p)
    else Filter(s[1..], p)
  }

  /** `s` is ordered by `key`, smallest first (ties allowed). */
  predicate SortedBy<T(!new)>(s: seq<T>, key: T -> int) {
    forall i, j :: 0 <= i < j < |s| ==> key(s[i]) <= key(s[j])
  }

  /** Filtering keeps the relative order, so it keeps sortedness. */
  lemma {:induction false} FilterKeepsSorted<T(!new)>(s: seq<T>, p: T -> bool, key: T -> int)
    requires SortedBy(s, key)
    ensures SortedBy(Filter(s, p), key)
  {
    if |s| > 0 {
      FilterKeepsSorted(s[1..], p, key);
      var rest := Filter(s[1..], p);
      forall x | x in rest
        ensures key(s[0]) <= key(x)
      {
        var k :| 0 <= k < |s[1..]| && s[1..][k] == x;
        assert s[k + 1] == x;
      }
    }
  }

  /** Filtering commutes with counting: every occurrence of an element that satisfies `p` is kept. */
  lemma {:induction false} FilterMultiset<T(!new)>(s: seq<T>, p: T -> bool, x: T)
    ensures multiset(Filter(s, p))[x] == if p(x) then multiset(s)[x] else 0
  {
    if |s| > 0 {
      FilterMultiset(s[1..], p, x);
      assert s == [s[0]] + s[1..];
    }
  }

  /**
   * Two filters whose predicates disagree on every element split the
   * sequence: together they hold each of its elements exactly once.
   */
  lemma FilterPartition<T(!new)>(s: seq<T>, p: T -> bool, q: T -> bool)
    requires forall x :: x in s ==> p(x) != q(x)
    ensures multiset(Filter(s, p)) + multiset(Filter(s, q)) == multiset(s)
  {
    forall x
      ensures (multiset(Filter(s, p)) + multiset(Filter(s, q)))[x] == multiset(s)[x]
    {
      FilterMultiset(s, p, x);
      FilterMultiset(s, q, x);
      if x !in s {
        assert multiset(s)[x] == 0;
      }
    }
  }
}
