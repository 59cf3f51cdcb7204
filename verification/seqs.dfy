/** `Array.prototype.filter` over sequences. */
module Seqs {

  /** The elements of `s` that satisfy `keep`; `FilterConcat` states that
      their order is kept and `FilterCount` their multiplicities. */
  function Filter<T>(s: seq<T>, keep: T -> bool): (r: seq<T>)
    ensures |r| <= |s|
    ensures forall i :: 0 <= i < |r| ==> r[i] in s && keep(r[i])
    ensures forall i :: 0 <= i < |s| && keep(s[i]) ==> s[i] in r
    decreases |s|
  {
    if s == [] then []
    else
      var init := Filter(s[..|s| - 1], keep);
      assert forall i :: 0 <= i < |s| - 1 ==> s[i] == s[..|s| - 1][i];
      if keep(s[|s| - 1]) then init + [s[|s| - 1]] else init
  }

  /** The multiplicities `Filter` keeps: every element that passes occurs
      in the result as often as in `s`, and no other element occurs. */
  lemma {:induction false} FilterCount<T(!new)>(s: seq<T>, keep: T -> bool)
    ensures forall x :: multiset(Filter(s, keep))[x] == if keep(x) then multiset(s)[x] else 0
    decreases |s|
  {
    if s != [] {
      var init := s[..|s| - 1];
      FilterCount(init, keep);
      FilterStepCount(s, keep, Filter(init, keep), Filter(s, keep));
    }
  }

  /** One more element of `s` adds one to its count in the result exactly
      when it is kept. */
  lemma FilterStepCount<T(!new)>(s: seq<T>, keep: T -> bool, init: seq<T>, r: seq<T>)
    requires s != []
    requires forall x :: multiset(init)[x] == if keep(x) then multiset(s[..|s| - 1])[x] else 0
    requires r == if keep(s[|s| - 1]) then init + [s[|s| - 1]] else init
    ensures forall x :: multiset(r)[x] == if keep(x) then multiset(s)[x] else 0
  {
    assert s == s[..|s| - 1] + [s[|s| - 1]];
    assert multiset(s) == multiset(s[..|s| - 1]) + multiset{s[|s| - 1]};
  }

  /** Filtering distributes over concatenation, so the result keeps the
      order of `s`: it is the concatenation of the one-element results. */
  lemma {:induction false} FilterConcat<T>(a: seq<T>, b: seq<T>, keep: T -> bool)
    ensures Filter(a + b, keep) == Filter(a, keep) + Filter(b, keep)
    decreases |b|
  {
    if b == [] {
      assert a + b == a;
    } else {
      var b' := b[..|b| - 1];
      assert (a + b)[..|a + b| - 1] == a + b';
      FilterConcat(a, b', keep);
    }
  }

  /** A filter every element passes changes nothing. */
  lemma {:induction false} FilterKeepsAll<T>(s: seq<T>, keep: T -> bool)
    requires forall i :: 0 <= i < |s| ==> keep(s[i])
    ensures Filter(s, keep) == s
    decreases |s|
  {
    if s != [] {
      FilterKeepsAll(s[..|s| - 1], keep);
    }
  }
}
