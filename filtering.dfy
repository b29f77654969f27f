/** `Array.prototype.filter` as the board uses it: a total predicate, a fresh
    sequence of the elements that pass it, in their original order. */
module Filtering {

  /** `r` can be obtained from `s` by deleting elements; what is left keeps its order. */
  ghost predicate IsSubsequence<T>(r: seq<T>, s: seq<T>)
    decreases |s|
  {
    r == [] ||
    (s != [] && ((r[0] == s[0] && IsSubsequence(r[1..], s[1..])) || IsSubsequence(r, s[1..])))
  }

  /** Every value occurs in `r` exactly as often as in `s` when it passes `p`, and never otherwise. */
  ghost predicate KeepsExactly<T(!new)>(p: T -> bool, r: seq<T>, s: seq<T>) {
    forall x :: multiset(r)[x] == if p(x) then multiset(s)[x] else 0
  }

  /** The elements of `s` that pass `p`, in order. */
  function Filter<T(!new)>(p: T -> bool, s: seq<T>): (r: seq<T>)
    ensures |r| <= |s|
    ensures forall x :: x in r <==> x in s && p(x)
  {
    if s == [] then []
    else
      assert s == [s[0]] + s[1..];
      if p(s[0]) then [s[0]] + Filter(p, s[1..]) else Filter(p, s[1..])
  }

  lemma {:induction false} SubsequenceMultiset<T>(r: seq<T>, s: seq<T>)
    requires IsSubsequence(r, s)
    ensures multiset(r) <= multiset(s)
    decreases |s|
  {
    if r != [] {
      assert s == [s[0]] + s[1..];
      if r[0] == s[0] && IsSubsequence(r[1..], s[1..]) {
        assert r == [r[0]] + r[1..];
        SubsequenceMultiset(r[1..], s[1..]);
      } else {
        SubsequenceMultiset(r, s[1..]);
      }
    }
  }

  /** Filtering keeps the input's order and drops nothing that passes. */
  lemma {:induction false} FilterIsSubsequence<T(!new)>(p: T -> bool, s: seq<T>)
    ensures IsSubsequence(Filter(p, s), s)
    ensures KeepsExactly(p, Filter(p, s), s)
  {
    if s != [] {
      FilterIsSubsequence(p, s[1..]);
      assert s == [s[0]] + s[1..];
      var r := Filter(p, s);
      if p(s[0]) {
        assert r[0] == s[0] && r[1..] == Filter(p, s[1..]);
      }
    }
  }

  /** The converse: a subsequence that keeps exactly the passing elements is the filter,
      so the two properties above define `Filter` completely. */
  lemma {:induction false} FilterUnique<T(!new)>(p: T -> bool, r: seq<T>, s: seq<T>)
    requires IsSubsequence(r, s) && KeepsExactly(p, r, s)
    ensures r == Filter(p, s)
    decreases |s|
  {
    if s == [] {
      assert r == [];
    } else {
      assert s == [s[0]] + s[1..];
      var x := s[0];
      if p(x) {
        assert multiset(r)[x] == multiset(s)[x] == multiset(s[1..])[x] + 1;
        if IsSubsequence(r, s[1..]) {
          SubsequenceMultiset(r, s[1..]);
          assert false;
        }
        assert r[0] == x && IsSubsequence(r[1..], s[1..]);
        assert r == [r[0]] + r[1..];
        forall y ensures multiset(r[1..])[y] == if p(y) then multiset(s[1..])[y] else 0 {
          assert multiset(r)[y] == multiset(r[1..])[y] + (if y == x then 1 else 0);
        }
        FilterUnique(p, r[1..], s[1..]);
      } else {
        assert multiset(r)[x] == 0;
        if r != [] {
          assert r[0] in multiset(r);
        }
        assert IsSubsequence(r, s[1..]);
        forall y ensures multiset(r)[y] == if p(y) then multiset(s[1..])[y] else 0 {
          if p(y) {
            assert y != x;
          }
        }
        FilterUnique(p, r, s[1..]);
      }
    }
  }

  /** All elements pass exactly when nothing is dropped; none passes exactly when the result is empty. */
  lemma {:induction false} FilterLength<T(!new)>(p: T -> bool, s: seq<T>)
    ensures |Filter(p, s)| == |s| <==> forall i :: 0 <= i < |s| ==> p(s[i])
    ensures Filter(p, s) == [] <==> forall i :: 0 <= i < |s| ==> !p(s[i])
  {
    if s != [] {
      FilterLength(p, s[1..]);
      assert forall i :: 1 <= i < |s| ==> s[i] == s[1..][i - 1];
      if !p(s[0]) {
        assert |Filter(p, s[1..])| <= |s[1..]|;
      }
    }
  }

  /** Two filters whose predicates never both hold together pick at most `|s|` elements. */
  lemma {:induction false} DisjointFiltersLength<T(!new)>(p: T -> bool, q: T -> bool, s: seq<T>)
    requires forall i :: 0 <= i < |s| ==> !(p(s[i]) && q(s[i]))
    ensures |Filter(p, s)| + |Filter(q, s)| <= |s|
  {
    if s != [] {
      assert forall i :: 1 <= i < |s| ==> s[i] == s[1..][i - 1];
      DisjointFiltersLength(p, q, s[1..]);
    }
  }

  /** A filter and the filter of the opposite predicate split the input between them. */
  lemma {:induction false} FilterPartition<T(!new)>(p: T -> bool, q: T -> bool, s: seq<T>)
    requires forall i :: 0 <= i < |s| ==> q(s[i]) == !p(s[i])
    ensures multiset(Filter(p, s)) + multiset(Filter(q, s)) == multiset(s)
    ensures |Filter(p, s)| + |Filter(q, s)| == |s|
  {
    if s != [] {
      assert forall i :: 1 <= i < |s| ==> s[i] == s[1..][i - 1];
      FilterPartition(p, q, s[1..]);
      assert s == [s[0]] + s[1..];
    }
  }
}
