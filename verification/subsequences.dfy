/** Order-preserving subsequences: what filtering or removing elements of a list leaves behind. */
module Subsequences {

  /** True iff `a` can be obtained from `b` by deleting elements, the rest keeping their order. */
  predicate IsSubseq<T(==)>(a: seq<T>, b: seq<T>)
    decreases |b|
  {
    if a == [] then true
    else if b == [] then false
    else (a[0] == b[0] && IsSubseq(a[1..], b[1..])) || IsSubseq(a, b[1..])
  }

  /** Every sequence is a subsequence of itself. */
  lemma {:induction false} SubseqRefl<T>(a: seq<T>)
    ensures IsSubseq(a, a)
    decreases |a|
  {
    if a != [] {
      SubseqRefl(a[1..]);
    }
  }

  /** A subsequence is never longer than the sequence it was taken from. */
  lemma {:induction false} SubseqLength<T>(a: seq<T>, b: seq<T>)
    requires IsSubseq(a, b)
    ensures |a| <= |b|
    decreases |b|
  {
    if a != [] {
      if a[0] == b[0] && IsSubseq(a[1..], b[1..]) {
        SubseqLength(a[1..], b[1..]);
      } else {
        SubseqLength(a, b[1..]);
      }
    }
  }

  /** Taking a subsequence of a subsequence yields a subsequence of the original. */
  lemma {:induction false} SubseqTrans<T>(a: seq<T>, b: seq<T>, c: seq<T>)
    requires IsSubseq(a, b) && IsSubseq(b, c)
    ensures IsSubseq(a, c)
    decreases |c|
  {
    if a != [] {
      assert b != [] && c != [];
      if IsSubseq(b, c[1..]) {
        SubseqTrans(a, b, c[1..]);
      } else if a[0] == b[0] && IsSubseq(a[1..], b[1..]) {
        SubseqTrans(a[1..], b[1..], c[1..]);
      } else {
        SubseqTrans(a, b[1..], c[1..]);
      }
    }
  }

  /** Removing the element at position `k` keeps the others in order. */
  lemma {:induction false} RemoveAtIsSubseq<T>(s: seq<T>, k: nat)
    requires k < |s|
    ensures IsSubseq(s[..k] + s[k + 1..], s)
    decreases k
  {
    if k == 0 {
      assert s[..0] + s[1..] == s[1..];
      SubseqRefl(s[1..]);
    } else {
      var r := s[..k] + s[k + 1..];
      RemoveAtIsSubseq(s[1..], k - 1);
      assert s[1..][..k - 1] + s[1..][k..] == r[1..];
      assert r[0] == s[0];
    }
  }
}
