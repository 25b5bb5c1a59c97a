/** Order-preserving selection from a sequence, the shape of every collection
    filter in the pipeline, with the multiset facts the partition proofs need. */
module Seqs {

  /** The elements of `s` that satisfy `p`, in their original order. */
  function Filter<T(==,!new)>(s: seq<T>, p: T -> bool): (r: seq<T>)
    ensures |r| <= |s|
    ensures forall x :: x in r <==> x in s && p(x)
  {
    if |s| == 0 then []
    else if p(s[0]) then [s[0]] + Filter(s[1..], p)
    else Filter(s[1..], p)
  }

  /** Filtering keeps every copy of a selected element and no copy of any other. */
  lemma {:induction false} FilterCount<T(!new)>(s: seq<T>, p: T -> bool, x: T)
    ensures multiset(Filter(s, p))[x] == if p(x) then multiset(s)[x] else 0
  {
    if |s| > 0 {
      assert s == [s[0]] + s[1..];
      FilterCount(s[1..], p, x);
    }
  }

  /** Two complementary filters split a sequence exactly: together they hold every
      element as often as `s` does, and their lengths add up to `|s|`. */
  lemma FilterSplit<T(!new)>(s: seq<T>, p: T -> bool, q: T -> bool)
    requires forall x :: q(x) == !p(x)
    ensures multiset(Filter(s, p)) + multiset(Filter(s, q)) == multiset(s)
    ensures |Filter(s, p)| + |Filter(s, q)| == |s|
  {
    forall x
      ensures (multiset(Filter(s, p)) + multiset(Filter(s, q)))[x] == multiset(s)[x]
    {
      FilterCount(s, p, x);
      FilterCount(s, q, x);
    }
    assert multiset(Filter(s, p)) + multiset(Filter(s, q)) == multiset(s);
    assert |multiset(Filter(s, p))| == |Filter(s, p)|;
    assert |multiset(Filter(s, q))| == |Filter(s, q)|;
  }

  /** A filter that every element passes returns its input unchanged. */
  lemma {:induction false} FilterAllPass<T(!new)>(s: seq<T>, p: T -> bool)
    requires forall i :: 0 <= i < |s| ==> p(s[i])
    ensures Filter(s, p) == s
  {
    if |s| > 0 {
      assert forall i :: 0 <= i < |s[1..]| ==> s[1..][i] == s[i + 1];
      FilterAllPass(s[1..], p);
      assert s == [s[0]] + s[1..];
    }
  }

  /** A filter with a failing element returns fewer elements than its input. */
  lemma {:induction false} FilterDropsFailing<T(!new)>(s: seq<T>, p: T -> bool, i: nat)
    requires i < |s| && !p(s[i])
    ensures |Filter(s, p)| < |s|
  {
    if i > 0 {
      assert s[1..][i - 1] == s[i];
      FilterDropsFailing(s[1..], p, i - 1);
    }
  }

  /** A filter drops nothing exactly when every element passes, and then it
      returns its input unchanged. */
  lemma FilterKeepsAll<T(!new)>(s: seq<T>, p: T -> bool)
    ensures |Filter(s, p)| == |s| <==> forall i :: 0 <= i < |s| ==> p(s[i])
    ensures (forall i :: 0 <= i < |s| ==> p(s[i])) ==> Filter(s, p) == s
  {
    if forall i :: 0 <= i < |s| ==> p(s[i]) {
      FilterAllPass(s, p);
    } else {
      var i :| 0 <= i < |s| && !p(s[i]);
      FilterDropsFailing(s, p, i);
    }
  }

  /** The union of a sequence of bags, counting multiplicity. */
  function SumBags<T>(bags: seq<multiset<T>>): multiset<T> {
    if |bags| == 0 then multiset{} else SumBags(bags[..|bags| - 1]) + bags[|bags| - 1]
  }

  /** If `x` occurs (`m` times) only in bag `f`, the union holds it `m` times
      when `f` is one of the bags and not at all otherwise. */
  lemma {:induction false} SumBagsCount<T>(bags: seq<multiset<T>>, x: T, f: int, m: nat)
    requires forall i :: 0 <= i < |bags| ==> bags[i][x] == if i == f then m else 0
    ensures SumBags(bags)[x] == if 0 <= f < |bags| then m else 0
  {
    if |bags| > 0 {
      SumBagsCount(bags[..|bags| - 1], x, f, m);
    }
  }
}
