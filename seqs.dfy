/** Sequence helpers shared by the model: `filter`, pairwise properties, subsequences, multisets. */
module Seqs {

  /** Swift's `Array.filter`: the elements satisfying `p`, in their original order. */
  function Filter<T(!new)>(s: seq<T>, p: T -> bool): (r: seq<T>)
    ensures |r| <= |s|
    ensures forall x :: x in r <==> x in s && p(x)
    ensures IsSubsequence(r, s)
  {
    if s == [] then []
    else if p(s[0]) then [s[0]] + Filter(s[1..], p)
    else Filter(s[1..], p)
  }

  /** When `p` holds on exactly the first `k` elements, filtering keeps that prefix. */
  lemma {:induction false} FilterPrefix<T(!new)>(s: seq<T>, p: T -> bool, k: nat)
    requires k <= |s|
    requires forall i :: 0 <= i < k ==> p(s[i])
    requires forall i :: k <= i < |s| ==> !p(s[i])
    ensures Filter(s, p) == s[..k]
    decreases |s|
  {
    if s != [] {
      var t := s[1..];
      var j := if k == 0 then 0 else k - 1;
      forall i | 0 <= i < j ensures p(t[i]) {
        assert t[i] == s[i + 1];
      }
      forall i | j <= i < |t| ensures !p(t[i]) {
        assert t[i] == s[i + 1];
      }
      FilterPrefix(t, p, j);
      if k == 0 {
        assert Filter(s, p) == Filter(t, p);
      } else {
        assert Filter(s, p) == [s[0]] + Filter(t, p);
        assert s[..k] == [s[0]] + t[..j];
      }
    }
  }

  /** `r` is `s` with some elements dropped and the order of the rest kept. */
  predicate IsSubsequence<T(==)>(r: seq<T>, s: seq<T>)
    decreases |s|
  {
    r == [] || (s != [] && ((r[0] == s[0] && IsSubsequence(r[1..], s[1..])) || IsSubsequence(r, s[1..])))
  }

  lemma {:induction false} SubsequenceMembers<T>(r: seq<T>, s: seq<T>)
    requires IsSubsequence(r, s)
    ensures forall x :: x in r ==> x in s
    decreases |s|
  {
    if r != [] {
      if r[0] == s[0] && IsSubsequence(r[1..], s[1..]) {
        SubsequenceMembers(r[1..], s[1..]);
        assert forall x :: x in r ==> x == r[0] || x in r[1..];
      } else {
        SubsequenceMembers(r, s[1..]);
      }
    }
  }

  /** Every pair of elements, taken in order, is related by `R`. */
  ghost predicate Pairwise<T>(s: seq<T>, R: (T, T) -> bool) {
    forall i, j :: 0 <= i < j < |s| ==> R(s[i], s[j])
  }

  /** Dropping elements keeps a pairwise property (sortedness, distinctness). */
  lemma {:induction false} PairwiseSubsequence<T>(r: seq<T>, s: seq<T>, R: (T, T) -> bool)
    requires IsSubsequence(r, s) && Pairwise(s, R)
    ensures Pairwise(r, R)
    decreases |s|
  {
    if r != [] {
      assert Pairwise(s[1..], R) by {
        forall i, j | 0 <= i < j < |s[1..]| ensures R(s[1..][i], s[1..][j]) {
          assert s[1..][i] == s[i + 1] && s[1..][j] == s[j + 1];
        }
      }
      if r[0] == s[0] && IsSubsequence(r[1..], s[1..]) {
        PairwiseSubsequence(r[1..], s[1..], R);
        SubsequenceMembers(r[1..], s[1..]);
        forall i, j | 0 <= i < j < |r| ensures R(r[i], r[j]) {
          if i == 0 {
            assert r[j] == r[1..][j - 1];
            assert r[j] in s[1..];
            var k :| 0 <= k < |s[1..]| && s[1..][k] == r[j];
            assert R(s[0], s[k + 1]);
          } else {
            assert r[i] == r[1..][i - 1] && r[j] == r[1..][j - 1];
          }
        }
      } else {
        PairwiseSubsequence(r, s[1..], R);
      }
    }
  }

  /** A value occurring at two positions occurs at least twice in the multiset. */
  lemma DuplicateMultiplicity<T>(s: seq<T>, i: nat, j: nat)
    requires i < j < |s| && s[i] == s[j]
    ensures multiset(s)[s[i]] >= 2
  {
    assert s == s[..j] + s[j..];
    assert s[i] in s[..j];
    assert s[j..][0] == s[j];
    assert multiset(s) == multiset(s[..j]) + multiset(s[j..]);
  }

  /** In a sequence without repeated values every value occurs at most once. */
  lemma {:induction false} DistinctMultiplicity<T>(s: seq<T>, x: T)
    requires forall i, j :: 0 <= i < j < |s| ==> s[i] != s[j]
    ensures multiset(s)[x] <= 1
  {
    if s != [] {
      var init := s[..|s| - 1];
      assert s == init + [s[|s| - 1]];
      DistinctMultiplicity(init, x);
      if s[|s| - 1] == x {
        assert x !in init;
      }
    }
  }

  /** A permutation of a sequence of pairwise distinct values has pairwise distinct values. */
  lemma DistinctPermutation<T>(r: seq<T>, s: seq<T>)
    requires multiset(r) == multiset(s)
    requires forall i, j :: 0 <= i < j < |s| ==> s[i] != s[j]
    ensures forall i, j :: 0 <= i < j < |r| ==> r[i] != r[j]
  {
    forall i, j | 0 <= i < j < |r| ensures r[i] != r[j] {
      if r[i] == r[j] {
        DuplicateMultiplicity(r, i, j);
        DistinctMultiplicity(s, r[i]);
        assert false;
      }
    }
  }

  /** Exact sum of `f` over a sequence (left to right). */
  function Sum<T>(s: seq<T>, f: T -> real): real {
    if s == [] then 0.0 else f(s[0]) + Sum(s[1..], f)
  }

  lemma {:induction false} SumAppend<T>(a: seq<T>, b: seq<T>, f: T -> real)
    ensures Sum(a + b, f) == Sum(a, f) + Sum(b, f)
  {
    if a != [] {
      assert (a + b)[1..] == a[1..] + b;
      SumAppend(a[1..], b, f);
    } else {
      assert a + b == b;
    }
  }

  lemma SumRemove<T>(b: seq<T>, k: nat, f: T -> real)
    requires k < |b|
    ensures Sum(b, f) == f(b[k]) + Sum(b[..k] + b[k + 1..], f)
  {
    assert b == (b[..k] + [b[k]]) + b[k + 1..];
    SumAppend(b[..k] + [b[k]], b[k + 1..], f);
    SumAppend(b[..k], [b[k]], f);
    SumAppend(b[..k], b[k + 1..], f);
    assert Sum([b[k]], f) == f(b[k]) + Sum([b[k]][1..], f);
  }

  lemma MultisetRemove<T>(b: seq<T>, k: nat)
    requires k < |b|
    ensures multiset(b[..k] + b[k + 1..]) == multiset(b) - multiset{b[k]}
  {
    assert b == b[..k] + [b[k]] + b[k + 1..];
    assert multiset(b) == multiset(b[..k]) + multiset{b[k]} + multiset(b[k + 1..]);
  }

  /** The first element of `a` occurs in its permutation `b`, and removing both leaves permutations. */
  lemma PermutationRemove<T>(a: seq<T>, b: seq<T>) returns (k: nat)
    requires multiset(a) == multiset(b) && a != []
    ensures k < |b| && b[k] == a[0]
    ensures multiset(a[1..]) == multiset(b[..k] + b[k + 1..])
  {
    assert a[0] in multiset(a);
    assert a[0] in b;
    k :| 0 <= k < |b| && b[k] == a[0];
    MultisetRemove(b, k);
    MultisetTail(a);
  }

  lemma MultisetTail<T>(s: seq<T>)
    requires s != []
    ensures multiset(s[1..]) == multiset(s) - multiset{s[0]}
  {
    assert s == [s[0]] + s[1..];
  }

  /** With exact arithmetic, reordering does not change a sum. */
  lemma {:induction false} SumPermutation<T>(a: seq<T>, b: seq<T>, f: T -> real)
    requires multiset(a) == multiset(b)
    ensures Sum(a, f) == Sum(b, f)
    decreases |a|
  {
    if a == [] {
      assert |b| == |multiset(b)| == 0;
    } else {
      var k := PermutationRemove(a, b);
      SumPermutation(a[1..], b[..k] + b[k + 1..], f);
      SumRemove(b, k, f);
    }
  }
}
