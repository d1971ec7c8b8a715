/** Sequence helpers shared by the ledger and the views: the order-preserving
    filter that `Array.prototype.filter` performs, and distinctness. */
module Seqs {

  /** `a` can be obtained from `b` by deleting elements (order is kept). */
  ghost predicate IsSubsequence<T>(a: seq<T>, b: seq<T>)
    decreases |b|
  {
    |a| == 0 || (|b| > 0 && (if a[0] == b[0] then IsSubsequence(a[1..], b[1..]) else IsSubsequence(a, b[1..])))
  }

  /** Every sequence is a subsequence of itself. */
  lemma {:induction false} SubsequenceReflexive<T>(s: seq<T>)
    ensures IsSubsequence(s, s)
    decreases |s|
  {
    if |s| > 0 {
      SubsequenceReflexive(s[1..]);
    }
  }

  /** Pairwise distinct elements. */
  ghost predicate Distinct<T>(s: seq<T>) {
    forall i, j :: 0 <= i < j < |s| ==> s[i] != s[j]
  }

  /** The elements of `s` that satisfy `p`, in their original order. */
  function Filter<T(==,!new)>(s: seq<T>, p: T -> bool): (r: seq<T>)
    ensures |r| <= |s|
    ensures IsSubsequence(r, s)
    ensures (forall i :: 0 <= i < |s| ==> p(s[i])) ==> r == s
    ensures forall x :: multiset(r)[x] == if p(x) then multiset(s)[x] else 0
  {
    if |s| == 0 then []
    else
      var rest := Filter(s[1..], p);
      FilterStepMultiset(s, rest, p);
      if p(s[0]) then
        assert (forall i :: 0 <= i < |s| ==> p(s[i])) ==> [s[0]] + rest == s by {
          if forall i :: 0 <= i < |s| ==> p(s[i]) {
            assert forall i :: 0 <= i < |s[1..]| ==> p(s[1..][i]);
            assert [s[0]] + s[1..] == s;
          }
        }
        [s[0]] + rest
      else rest
  }

  /** One step of the filter, counted: keeping or dropping the head moves
      every element's multiplicity as the filter's contract says. */
  lemma FilterStepMultiset<T(!new)>(s: seq<T>, rest: seq<T>, p: T -> bool)
    requires |s| > 0
    requires forall x :: multiset(rest)[x] == if p(x) then multiset(s[1..])[x] else 0
    ensures p(s[0]) ==> forall x :: multiset([s[0]] + rest)[x] == if p(x) then multiset(s)[x] else 0
    ensures !p(s[0]) ==> forall x :: multiset(rest)[x] == if p(x) then multiset(s)[x] else 0
  {
    assert s == [s[0]] + s[1..];
    assert multiset(s) == multiset{s[0]} + multiset(s[1..]);
    assert multiset([s[0]] + rest) == multiset{s[0]} + multiset(rest);
  }

  /** Membership, position by position: what the filter keeps comes from `s`
      and passes `p`, and every element of `s` that passes is kept. */
  lemma FilterMembers<T(!new)>(s: seq<T>, p: T -> bool)
    ensures forall i :: 0 <= i < |Filter(s, p)| ==> Filter(s, p)[i] in s && p(Filter(s, p)[i])
    ensures forall i :: 0 <= i < |s| && p(s[i]) ==> s[i] in Filter(s, p)
  {
    var r := Filter(s, p);
    forall i | 0 <= i < |r| ensures r[i] in s && p(r[i]) {
      assert multiset(r)[r[i]] > 0;
    }
    forall i | 0 <= i < |s| && p(s[i]) ensures s[i] in r {
      assert multiset(s)[s[i]] > 0;
    }
  }

  /** Filtering twice with the same predicate is filtering once. */
  lemma FilterIdempotent<T(!new)>(s: seq<T>, p: T -> bool)
    ensures Filter(Filter(s, p), p) == Filter(s, p)
  {
  }
}
