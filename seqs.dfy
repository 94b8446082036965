/** Order-preserving filtering of sequences, with an independent
    characterisation: the filtered sequence is the one subsequence that
    keeps every element satisfying the predicate and nothing else. */
module Seqs {

  /** The elements of `s` that satisfy `p`, in their original order. */
  function Filter<T>(s: seq<T>, p: T -> bool): (r: seq<T>)
    ensures |r| <= |s|
    ensures forall k :: 0 <= k < |r| ==> p(r[k])
  {
    if s == [] then []
    else Filter(s[..|s| - 1], p) + (if p(s[|s| - 1]) then [s[|s| - 1]] else [])
  }

  /** How many elements of `s` satisfy `p`. */
  function Count<T>(s: seq<T>, p: T -> bool): nat
  {
    if s == [] then 0
    else Count(s[..|s| - 1], p) + (if p(s[|s| - 1]) then 1 else 0)
  }

  /** `r` can be obtained from `s` by deleting elements (order kept). */
  predicate IsSubsequence<T(==)>(r: seq<T>, s: seq<T>)
  {
    if r == [] then true
    else if s == [] then false
    else if r[|r| - 1] == s[|s| - 1] then IsSubsequence(r[..|r| - 1], s[..|s| - 1])
    else IsSubsequence(r, s[..|s| - 1])
  }

  /** Filtering one element more extends the result by that element when
      it satisfies the predicate. */
  lemma FilterSnoc<T>(s: seq<T>, x: T, p: T -> bool)
    ensures Filter(s + [x], p) == Filter(s, p) + (if p(x) then [x] else [])
  {
    assert (s + [x])[..|s|] == s;
  }

  /** Filtering a prefix one element longer: `after` is what filtering the
      first `i + 1` elements gives once `before` is known for the first `i`. */
  lemma FilterPrefixStep<T>(s: seq<T>, i: nat, x: T, p: T -> bool, kept: bool, before: seq<T>, after: seq<T>)
    requires i < |s| && s[i] == x && (kept <==> p(x))
    requires before == Filter(s[..i], p)
    requires after == if kept then before + [x] else before
    ensures after == Filter(s[..i + 1], p)
  {
    assert s[..i + 1][..i] == s[..i];
  }

  /** Filter keeps exactly the elements that satisfy the predicate. */
  lemma {:induction false} FilterMembership<T>(s: seq<T>, p: T -> bool, x: T)
    ensures x in Filter(s, p) <==> x in s && p(x)
  {
    if s != [] {
      var init := s[..|s| - 1];
      FilterMembership(init, p, x);
      assert s == init + [s[|s| - 1]];
    }
  }

  /** Filter never reorders: its result is a subsequence of its input. */
  lemma {:induction false} FilterIsSubsequence<T>(s: seq<T>, p: T -> bool)
    ensures IsSubsequence(Filter(s, p), s)
  {
    if s != [] {
      var init, last := s[..|s| - 1], s[|s| - 1];
      FilterIsSubsequence(init, p);
      if p(last) {
        var r := Filter(s, p);
        assert r[..|r| - 1] == Filter(init, p);
      } else {
        assert Filter(s, p) == Filter(init, p);
        SubsequenceDropLast(Filter(init, p), s);
      }
    }
  }

  /** Filter drops only elements that fail the predicate. */
  lemma {:induction false} FilterLength<T>(s: seq<T>, p: T -> bool)
    ensures |Filter(s, p)| == Count(s, p)
  {
    if s != [] {
      FilterLength(s[..|s| - 1], p);
    }
  }

  /** A subsequence made of elements satisfying `p` is at most as long as
      the number of such elements. */
  lemma {:induction false} SubsequenceCountBound<T>(r: seq<T>, s: seq<T>, p: T -> bool)
    requires IsSubsequence(r, s)
    requires forall k :: 0 <= k < |r| ==> p(r[k])
    ensures |r| <= Count(s, p)
  {
    if r != [] {
      var sInit := s[..|s| - 1];
      if r[|r| - 1] == s[|s| - 1] {
        var rInit := r[..|r| - 1];
        assert forall k :: 0 <= k < |rInit| ==> p(rInit[k]) by {
          forall k | 0 <= k < |rInit| ensures p(rInit[k]) { assert rInit[k] == r[k]; }
        }
        SubsequenceCountBound(rInit, sInit, p);
        assert p(r[|r| - 1]);
      } else {
        SubsequenceCountBound(r, sInit, p);
      }
    }
  }

  /** Filter is the only subsequence of `s` that consists of elements
      satisfying `p` and has as many elements as `s` has such elements. */
  lemma {:induction false} FilterUnique<T>(r: seq<T>, s: seq<T>, p: T -> bool)
    requires IsSubsequence(r, s)
    requires forall k :: 0 <= k < |r| ==> p(r[k])
    requires |r| == Count(s, p)
    ensures r == Filter(s, p)
  {
    if s == [] {
    } else if r == [] {
      FilterLength(s, p);
    } else {
      var sInit, last := s[..|s| - 1], s[|s| - 1];
      if r[|r| - 1] == last {
        var rInit := r[..|r| - 1];
        assert forall k :: 0 <= k < |rInit| ==> p(rInit[k]) by {
          forall k | 0 <= k < |rInit| ensures p(rInit[k]) { assert rInit[k] == r[k]; }
        }
        assert p(r[|r| - 1]);
        FilterUnique(rInit, sInit, p);
        assert r == rInit + [last];
      } else {
        SubsequenceCountBound(r, sInit, p);
        assert !p(last);
        FilterUnique(r, sInit, p);
      }
    }
  }

  /** A subsequence of a prefix is a subsequence of the whole. */
  lemma {:induction false} SubsequenceDropLast<T>(r: seq<T>, s: seq<T>)
    requires s != []
    requires IsSubsequence(r, s[..|s| - 1])
    ensures IsSubsequence(r, s)
  {
    if r != [] && r[|r| - 1] == s[|s| - 1] {
      SubsequenceWeaken(r, s[..|s| - 1]);
    }
  }

  /** Dropping the last element of a subsequence keeps it a subsequence. */
  lemma {:induction false} SubsequenceWeaken<T>(r: seq<T>, s: seq<T>)
    requires r != []
    requires IsSubsequence(r, s)
    ensures IsSubsequence(r[..|r| - 1], s)
  {
    var rInit := r[..|r| - 1];
    var sInit := s[..|s| - 1];
    if r[|r| - 1] == s[|s| - 1] {
      SubsequenceDropLast(rInit, s);
    } else {
      SubsequenceWeaken(r, sInit);
      SubsequenceDropLast(rInit, s);
    }
  }

  /** Filtering five entries of which only the third fails keeps the other
      four, in order. */
  lemma KeepAllButThird<T>(e: seq<T>, keep: T -> bool, x0: T, x1: T, x2: T, x3: T, x4: T)
    requires e == [x0, x1, x2, x3, x4]
    requires keep(x0) && keep(x1) && !keep(x2) && keep(x3) && keep(x4)
    ensures Filter(e, keep) == [x0, x1, x3, x4]
  {
    assert e[..1][..0] == [];
    assert e[..2][..1] == e[..1];
    assert e[..3][..2] == e[..2];
    assert e[..4][..3] == e[..3];
    assert e[..5][..4] == e[..4] && e[..5] == e;
    assert Filter(e[..1], keep) == [x0];
    assert Filter(e[..2], keep) == [x0, x1];
    assert Filter(e[..3], keep) == [x0, x1];
    assert Filter(e[..4], keep) == [x0, x1, x3];
  }
}
