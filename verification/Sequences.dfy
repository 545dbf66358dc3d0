/** Subsequences, from the end inwards, because every history in the project grows at its end. */
module Sequences {

  /** `a` is obtained from `b` by deleting elements: nothing duplicated, nothing reordered. */
  predicate Subseq<T(==)>(a: seq<T>, b: seq<T>)
    decreases |b|
  {
    || a == []
    || (b != [] && Subseq(a, b[..|b| - 1]))
    || (b != [] && a[|a| - 1] == b[|b| - 1] && Subseq(a[..|a| - 1], b[..|b| - 1]))
  }

  /** What `Subseq` means: strictly increasing positions of `b` spell `a`. */
  lemma {:induction false} SubseqPositions<T>(a: seq<T>, b: seq<T>) returns (at: seq<nat>)
    requires Subseq(a, b)
    ensures |at| == |a|
    ensures forall i :: 0 <= i < |at| ==> at[i] < |b| && b[at[i]] == a[i]
    ensures forall i, j :: 0 <= i < j < |at| ==> at[i] < at[j]
    decreases |b|
  {
    if a == [] {
      at := [];
    } else if Subseq(a, b[..|b| - 1]) {
      at := SubseqPositions(a, b[..|b| - 1]);
    } else {
      var front := SubseqPositions(a[..|a| - 1], b[..|b| - 1]);
      at := front + [|b| - 1];
    }
  }

  lemma {:induction false} SubseqRefl<T>(a: seq<T>)
    ensures Subseq(a, a)
  {
    if a != [] {
      SubseqRefl(a[..|a| - 1]);
    }
  }

  lemma {:induction false} SubseqTrans<T>(a: seq<T>, b: seq<T>, c: seq<T>)
    requires Subseq(a, b) && Subseq(b, c)
    ensures Subseq(a, c)
    decreases |c|, |b|
  {
    if a != [] && b != [] {
      if Subseq(b, c[..|c| - 1]) {
        SubseqTrans(a, b, c[..|c| - 1]);
      } else if Subseq(a, b[..|b| - 1]) {
        SubseqTrans(a, b[..|b| - 1], c[..|c| - 1]);
      } else {
        SubseqTrans(a[..|a| - 1], b[..|b| - 1], c[..|c| - 1]);
      }
    }
  }

  /** Concatenation keeps the relation on both sides. */
  lemma {:induction false} SubseqConcat<T>(a: seq<T>, b: seq<T>, c: seq<T>, d: seq<T>)
    requires Subseq(a, b) && Subseq(c, d)
    ensures Subseq(a + c, b + d)
    decreases |d|
  {
    if d == [] {
      assert a + c == a && b + d == b;
    } else {
      assert (b + d)[..|b + d| - 1] == b + d[..|d| - 1];
      if c == [] || Subseq(c, d[..|d| - 1]) {
        SubseqConcat(a, b, c, d[..|d| - 1]);
      } else {
        assert (a + c)[..|a + c| - 1] == a + c[..|c| - 1];
        SubseqConcat(a, b, c[..|c| - 1], d[..|d| - 1]);
      }
    }
  }

  lemma {:induction false} SubseqOfSlice<T>(s: seq<T>, lo: nat, hi: nat)
    requires lo <= hi <= |s|
    ensures Subseq(s[lo..hi], s)
  {
    assert s == s[..lo] + s[lo..hi] + s[hi..];
    SubseqRefl(s[lo..hi]);
    SubseqConcat([], s[..lo], s[lo..hi], s[lo..hi]);
    assert [] + s[lo..hi] == s[lo..hi];
    SubseqConcat(s[lo..hi], s[..lo] + s[lo..hi], [], s[hi..]);
    assert s[lo..hi] + [] == s[lo..hi];
  }

  lemma ConcatAssoc<T>(a: seq<T>, b: seq<T>, c: seq<T>)
    ensures a + b + c == a + (b + c)
  {
  }

  lemma FrontOfConcat<T>(a: seq<T>, b: seq<T>)
    requires b != []
    ensures (a + b)[..|a + b| - 1] == a + b[..|b| - 1]
    ensures (a + b)[|a + b| - 1] == b[|b| - 1]
  {
  }
}
