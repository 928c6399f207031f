/** Order, sub-sequence and multiset facts about sequences, used by every protocol module. */
module Sequences {

  /** Strictly increasing: an ordered list without repeats. */
  ghost predicate Increasing(ps: seq<nat>) {
    forall i, j :: 0 <= i < j < |ps| ==> ps[i] < ps[j]
  }

  ghost predicate Within(ps: seq<nat>, n: nat) {
    forall i :: 0 <= i < |ps| ==> ps[i] < n
  }

  lemma {:induction false} IncreasingAtLeast(ps: seq<nat>, k: nat)
    requires Increasing(ps) && k < |ps|
    ensures ps[k] >= k
  {
    if k > 0 {
      IncreasingAtLeast(ps, k - 1);
    }
  }

  /** An increasing list of positions below n has at most n of them. */
  lemma IncreasingFits(ps: seq<nat>, n: nat)
    requires Increasing(ps) && Within(ps, n)
    ensures |ps| <= n
  {
    if ps != [] {
      IncreasingAtLeast(ps, |ps| - 1);
    }
  }

  /** The elements of log at the given positions. */
  function Pick<T>(log: seq<T>, ps: seq<nat>): (r: seq<T>)
    requires Within(ps, |log|)
    ensures |r| == |ps|
    ensures forall i :: 0 <= i < |r| ==> r[i] == log[ps[i]]
  {
    seq(|ps|, i requires 0 <= i < |ps| => log[ps[i]])
  }

  /** a is obtained from b by deleting elements, keeping the order. */
  ghost predicate Subsequence<T>(a: seq<T>, b: seq<T>) {
    exists ps: seq<nat> :: Picks(a, b, ps)
  }

  ghost predicate Picks<T>(a: seq<T>, b: seq<T>, ps: seq<nat>) {
    Increasing(ps) && Within(ps, |b|) && a == Pick(b, ps)
  }

  lemma SubsequenceTransitive<T>(a: seq<T>, b: seq<T>, c: seq<T>)
    requires Subsequence(a, b) && Subsequence(b, c)
    ensures Subsequence(a, c)
  {
    var ps: seq<nat> :| Picks(a, b, ps);
    var qs: seq<nat> :| Picks(b, c, qs);
    assert Within(ps, |qs|);
    var rs := Pick(qs, ps);
    assert Picks(a, c, rs);
  }

  lemma PrefixIsSubsequence<T>(a: seq<T>, b: seq<T>)
    requires a <= b
    ensures Subsequence(a, b)
  {
    var ps: seq<nat> := seq(|a|, i => i);
    assert Picks(a, b, ps);
  }

  lemma SubsequenceConcat<T>(a: seq<T>, b: seq<T>, c: seq<T>, d: seq<T>)
    requires Subsequence(a, b) && Subsequence(c, d)
    ensures Subsequence(a + c, b + d)
  {
    var ps: seq<nat> :| Picks(a, b, ps);
    var qs: seq<nat> :| Picks(c, d, qs);
    var shifted: seq<nat> := seq(|qs|, i requires 0 <= i < |qs| => |b| + qs[i]);
    assert Picks(a + c, b + d, ps + shifted);
  }

  /** The elements of xs other than one occurrence at index i. */
  lemma RemoveAt<T>(xs: seq<T>, i: nat)
    requires i < |xs|
    ensures multiset(xs) == multiset(xs[..i] + xs[i + 1..]) + multiset{xs[i]}
  {
    assert xs == xs[..i] + [xs[i]] + xs[i + 1..];
  }

  lemma MultisetOfPrefix<T>(a: seq<T>, b: seq<T>)
    requires a <= b
    ensures multiset(a) <= multiset(b)
  {
    assert b == a + b[|a|..];
  }

  /** Dropping one position drops exactly the element it picks. */
  lemma PickWithout<T>(log: seq<T>, ps: seq<nat>, i: nat)
    requires i < |ps| && Within(ps, |log|)
    ensures multiset(ps) == multiset(ps[..i] + ps[i + 1..]) + multiset{ps[i]}
    ensures Within(ps[..i] + ps[i + 1..], |log|)
    ensures multiset(Pick(log, ps)) == multiset(Pick(log, ps[..i] + ps[i + 1..])) + multiset{log[ps[i]]}
  {
    RemoveAt(ps, i);
    var picked := Pick(log, ps);
    RemoveAt(picked, i);
    assert picked[..i] + picked[i + 1..] == Pick(log, ps[..i] + ps[i + 1..]);
  }

  lemma IndexOf<T>(xs: seq<T>, x: T) returns (k: nat)
    requires x in multiset(xs)
    ensures k < |xs| && xs[k] == x
  {
    assert x in xs;
    k :| 0 <= k < |xs| && xs[k] == x;
  }

  /** Position lists that agree as multisets pick the same multiset of elements. */
  lemma {:induction false} PickRespectsMultisets<T>(log: seq<T>, ps: seq<nat>, qs: seq<nat>)
    requires multiset(ps) == multiset(qs)
    requires Within(ps, |log|) && Within(qs, |log|)
    ensures multiset(Pick(log, ps)) == multiset(Pick(log, qs))
    decreases |ps|
  {
    assert |ps| == |multiset(ps)| == |multiset(qs)| == |qs|;
    if ps != [] {
      assert ps[0] in multiset(ps);
      var k := IndexOf(qs, ps[0]);
      PickWithout(log, ps, 0);
      PickWithout(log, qs, k);
      var ps', qs' := ps[..0] + ps[1..], qs[..k] + qs[k + 1..];
      assert multiset(ps') == multiset(ps) - multiset{ps[0]};
      assert multiset(qs') == multiset(qs) - multiset{ps[0]};
      PickRespectsMultisets(log, ps', qs');
    }
  }

  /** The positions 0, 1, ..., n - 1. */
  function UpTo(n: nat): (r: seq<nat>)
    ensures |r| == n && forall i :: 0 <= i < n ==> r[i] == i
  {
    seq(n, i => i)
  }

  lemma PickUpTo<T>(log: seq<T>)
    ensures Pick(log, UpTo(|log|)) == log
  {
  }

  lemma SamePositionsWithin(ps: seq<nat>, n: nat)
    requires multiset(ps) == multiset(UpTo(n))
    ensures Within(ps, n)
  {
    forall i | 0 <= i < |ps|
      ensures ps[i] < n
    {
      assert ps[i] in multiset(ps);
      assert ps[i] in UpTo(n);
    }
  }

  lemma PickConcat<T>(log: seq<T>, ps: seq<nat>, rest: seq<nat>)
    requires Within(ps + rest, |log|)
    ensures Within(ps, |log|) && Within(rest, |log|)
    ensures Pick(log, ps + rest) == Pick(log, ps) + Pick(log, rest)
  {
    var all := ps + rest;
    assert forall i :: 0 <= i < |ps| ==> ps[i] == all[i];
    assert forall i :: 0 <= i < |rest| ==> rest[i] == all[|ps| + i];
  }

  /** When ps and rest together list 0..n-1 once each, they split the log as a multiset. */
  lemma PickSplits<T>(log: seq<T>, ps: seq<nat>, rest: seq<nat>)
    requires multiset(ps + rest) == multiset(UpTo(|log|))
    ensures Within(ps, |log|) && Within(rest, |log|)
    ensures multiset(Pick(log, ps)) + multiset(Pick(log, rest)) == multiset(log)
  {
    SamePositionsWithin(ps + rest, |log|);
    PickConcat(log, ps, rest);
    PickRespectsMultisets(log, ps + rest, UpTo(|log|));
    PickUpTo(log);
  }

  // ---- totals over a sequence ----

  function Total<T>(xs: seq<T>, weight: T -> nat): nat {
    if xs == [] then 0 else Total(xs[..|xs| - 1], weight) + weight(xs[|xs| - 1])
  }

  lemma {:induction false} TotalUpdate<T>(xs: seq<T>, i: nat, x: T, weight: T -> nat)
    requires i < |xs|
    ensures Total(xs[i := x], weight) == Total(xs, weight) - weight(xs[i]) + weight(x)
  {
    var n := |xs| - 1;
    if i == n {
      assert xs[i := x][..n] == xs[..n];
    } else {
      assert xs[i := x][..n] == xs[..n][i := x];
      TotalUpdate(xs[..n], i, x, weight);
    }
  }

  lemma TotalSnoc<T>(xs: seq<T>, x: T, weight: T -> nat)
    ensures Total(xs + [x], weight) == Total(xs, weight) + weight(x)
  {
    assert (xs + [x])[..|xs|] == xs;
  }

  lemma {:induction false} TotalAtLeast<T>(xs: seq<T>, i: nat, weight: T -> nat)
    requires i < |xs|
    ensures Total(xs, weight) >= weight(xs[i])
  {
    if i < |xs| - 1 {
      TotalAtLeast(xs[..|xs| - 1], i, weight);
    }
  }

  lemma {:induction false} SomePositive<T>(xs: seq<T>, weight: T -> nat) returns (i: nat)
    requires Total(xs, weight) > 0
    ensures i < |xs| && weight(xs[i]) > 0
  {
    var n := |xs| - 1;
    if weight(xs[n]) > 0 {
      i := n;
    } else {
      i := SomePositive(xs[..n], weight);
    }
  }

  lemma {:induction false} SameTotal<T>(xs: seq<T>, ys: seq<T>, weight: T -> nat)
    requires |xs| == |ys| && forall i :: 0 <= i < |xs| ==> weight(xs[i]) == weight(ys[i])
    ensures Total(xs, weight) == Total(ys, weight)
  {
    if xs != [] {
      SameTotal(xs[..|xs| - 1], ys[..|ys| - 1], weight);
    }
  }
}
