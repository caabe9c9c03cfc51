/**
 Sequence helpers shared by the tracker, the contract selection and the
 scoring: Python list comprehensions with an `if` become `Filter`, column
 expressions become `MapSeq`, and "keeps the original order" is stated with
 `IsSubsequence`.
 */
module Seqs {

  /** The elements of `s` that satisfy `p`, in their original order. */
  function Filter<T(!new)>(p: T -> bool, s: seq<T>): (r: seq<T>)
    ensures |r| <= |s|
    ensures forall x :: x in r <==> x in s && p(x)
  {
    if s == [] then []
    else if p(s[0]) then [s[0]] + Filter(p, s[1..])
    else Filter(p, s[1..])
  }

  /** `r` can be obtained from `s` by deleting elements. */
  ghost predicate IsSubsequence<T(!new)>(r: seq<T>, s: seq<T>)
    decreases |s|
  {
    r == [] || (s != [] && ((r[0] == s[0] && IsSubsequence(r[1..], s[1..])) || IsSubsequence(r, s[1..])))
  }

  /** Applies `f` to every element, keeping positions. */
  function MapSeq<A, B>(f: A -> B, s: seq<A>): (r: seq<B>)
    ensures |r| == |s|
    ensures forall i :: 0 <= i < |s| ==> r[i] == f(s[i])
  {
    if s == [] then [] else [f(s[0])] + MapSeq(f, s[1..])
  }

  /** The first `n` elements, or all of them when there are fewer (pandas `head`). */
  function Take<T>(s: seq<T>, n: nat): (r: seq<T>)
    ensures |r| == if |s| < n then |s| else n
    ensures forall i :: 0 <= i < |r| ==> r[i] == s[i]
  {
    if |s| <= n then s else s[..n]
  }

  lemma {:induction false} FilterConcat<T(!new)>(p: T -> bool, a: seq<T>, b: seq<T>)
    ensures Filter(p, a + b) == Filter(p, a) + Filter(p, b)
  {
    if a == [] {
      assert a + b == b;
    } else {
      assert (a + b)[0] == a[0];
      assert (a + b)[1..] == a[1..] + b;
      FilterConcat(p, a[1..], b);
    }
  }

  lemma {:induction false} FilterNone<T(!new)>(p: T -> bool, s: seq<T>)
    requires forall k :: 0 <= k < |s| ==> !p(s[k])
    ensures Filter(p, s) == []
  {
    if s != [] {
      FilterNone(p, s[1..]);
    }
  }

  /** Filtering twice is filtering once by the conjunction. */
  lemma {:induction false} FilterFuse<T(!new)>(p: T -> bool, q: T -> bool, pq: T -> bool, s: seq<T>)
    requires forall x :: pq(x) == (p(x) && q(x))
    ensures Filter(q, Filter(p, s)) == Filter(pq, s)
  {
    if s != [] {
      FilterFuse(p, q, pq, s[1..]);
    }
  }

  /** Filtering keeps every copy of a satisfying element and drops every copy of the others. */
  lemma {:induction false} FilterCount<T(!new)>(p: T -> bool, s: seq<T>, x: T)
    ensures multiset(Filter(p, s))[x] == if p(x) then multiset(s)[x] else 0
  {
    if s != [] {
      FilterCount(p, s[1..], x);
      assert s == [s[0]] + s[1..];
    }
  }

  /** Filtering never reorders. */
  lemma {:induction false} FilterIsSubsequence<T(!new)>(p: T -> bool, s: seq<T>)
    ensures IsSubsequence(Filter(p, s), s)
  {
    if s != [] {
      FilterIsSubsequence(p, s[1..]);
      if p(s[0]) {
        assert Filter(p, s)[1..] == Filter(p, s[1..]);
      }
    }
  }

  /** A prefix of a subsequence of `s` is still a subsequence of `s`. */
  lemma {:induction false} SubsequencePrefix<T(!new)>(r: seq<T>, s: seq<T>, n: nat)
    requires IsSubsequence(r, s) && n <= |r|
    ensures IsSubsequence(r[..n], s)
    decreases |s|
  {
    if n > 0 {
      assert r[..n][0] == r[0];
      if r[0] == s[0] && IsSubsequence(r[1..], s[1..]) {
        SubsequencePrefix(r[1..], s[1..], n - 1);
        assert r[..n][1..] == r[1..][..n - 1];
      } else {
        SubsequencePrefix(r, s[1..], n);
      }
    }
  }

  /** `rel` holds between every element of `s` and every later one. */
  ghost predicate Ordered<T>(rel: (T, T) -> bool, s: seq<T>)
  {
    forall i, j :: 0 <= i < j < |s| ==> rel(s[i], s[j])
  }

  /** A pairwise relation that holds along `s` still holds along any filter of `s`. */
  lemma {:induction false} FilterKeepsOrdered<T(!new)>(rel: (T, T) -> bool, p: T -> bool, s: seq<T>)
    requires Ordered(rel, s)
    ensures Ordered(rel, Filter(p, s))
  {
    if s != [] {
      var t := s[1..];
      assert Ordered(rel, t) by {
        forall i, j | 0 <= i < j < |t| ensures rel(t[i], t[j]) {
          assert t[i] == s[i + 1] && t[j] == s[j + 1];
        }
      }
      FilterKeepsOrdered(rel, p, t);
      var r := Filter(p, s);
      var rt := Filter(p, t);
      if p(s[0]) {
        assert r == [s[0]] + rt;
        forall i, j | 0 <= i < j < |r| ensures rel(r[i], r[j]) {
          assert r[j] == rt[j - 1];
          if i == 0 {
            assert rt[j - 1] in rt;
            var k :| 0 <= k < |t| && t[k] == r[j];
            assert s[k + 1] == r[j];
            assert rel(s[0], s[k + 1]);
          } else {
            assert r[i] == rt[i - 1];
            assert rel(rt[i - 1], rt[j - 1]);
          }
        }
      } else {
        assert r == rt;
      }
    }
  }

  /** A filter with two or more elements comes from two distinct positions of `s`. */
  lemma {:induction false} FilterTwo<T(!new)>(p: T -> bool, s: seq<T>)
    requires |Filter(p, s)| >= 2
    ensures exists i, j :: 0 <= i < j < |s| && p(s[i]) && p(s[j])
  {
    var t := s[1..];
    if p(s[0]) {
      var r := Filter(p, t);
      assert |r| >= 1;
      assert r[0] in r;
      var k :| 0 <= k < |t| && t[k] == r[0];
      assert p(s[0]) && p(s[k + 1]);
    } else {
      FilterTwo(p, t);
      var i, j :| 0 <= i < j < |t| && p(t[i]) && p(t[j]);
      assert p(s[i + 1]) && p(s[j + 1]);
    }
  }

  lemma {:induction false} MapConcat<A, B>(f: A -> B, a: seq<A>, b: seq<A>)
    ensures MapSeq(f, a + b) == MapSeq(f, a) + MapSeq(f, b)
  {
  }

  /** Mapping respects permutations: equal multisets in, equal multisets out. */
  lemma {:induction false} MapPermutation<A, B>(f: A -> B, a: seq<A>, b: seq<A>)
    requires multiset(a) == multiset(b)
    ensures multiset(MapSeq(f, a)) == multiset(MapSeq(f, b))
  {
    if a != [] {
      var j := PermutationSplit(a, b);
      var left, right := b[..j], b[j + 1..];
      MapPermutation(f, a[1..], left + right);
      assert b == left + [b[j]] + right;
      MapConcat(f, left + [b[j]], right);
      MapConcat(f, left, [b[j]]);
      MapConcat(f, left, right);
      MapMultiset(f, left, [b[j]], right);
      assert MapSeq(f, a) == [f(a[0])] + MapSeq(f, a[1..]);
    }
  }

  lemma MapMultiset<A, B>(f: A -> B, left: seq<A>, mid: seq<A>, right: seq<A>)
    requires MapSeq(f, left + mid + right) == MapSeq(f, left) + MapSeq(f, mid) + MapSeq(f, right)
    requires MapSeq(f, left + right) == MapSeq(f, left) + MapSeq(f, right)
    ensures multiset(MapSeq(f, left + mid + right)) == multiset(MapSeq(f, left + right)) + multiset(MapSeq(f, mid))
  {
  }

  /** Finds the position in `b` of the first element of `a` and what remains. */
  lemma PermutationSplit<T>(a: seq<T>, b: seq<T>) returns (j: nat)
    requires a != [] && multiset(a) == multiset(b)
    ensures j < |b| && b[j] == a[0]
    ensures multiset(a[1..]) == multiset(b[..j] + b[j + 1..])
  {
    var x := a[0];
    assert a == [x] + a[1..];
    assert multiset(a) == multiset{x} + multiset(a[1..]);
    assert x in multiset(b);
    assert x in b;
    j :| 0 <= j < |b| && b[j] == x;
    var left, right := b[..j], b[j + 1..];
    assert b == left + [x] + right;
    assert multiset(b) == multiset(left) + multiset{x} + multiset(right);
    assert multiset(left + right) == multiset(left) + multiset(right);
    assert multiset(b) == multiset(left + right) + multiset{x};
    assert multiset(a[1..]) + multiset{x} == multiset(left + right) + multiset{x};
    assert multiset(a[1..]) == multiset(a[1..]) + multiset{x} - multiset{x};
  }
}
