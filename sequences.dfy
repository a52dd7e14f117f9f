/** Subsequences: what a filter that appends each kept element once, in order, produces. */
module Sequences {

  /** `r` is `s` restricted to the strictly increasing positions `idx`. */
  ghost predicate SubsequenceAt<T>(r: seq<T>, s: seq<T>, idx: seq<int>) {
    && |idx| == |r|
    && (forall k :: 0 <= k < |idx| ==> 0 <= idx[k] < |s| && r[k] == s[idx[k]])
    && (forall k, l :: 0 <= k < l < |idx| ==> idx[k] < idx[l])
  }

  /** `r` keeps some of the elements of `s`, in their order, none of them twice. */
  ghost predicate IsSubsequence<T>(r: seq<T>, s: seq<T>) {
    exists idx :: SubsequenceAt(r, s, idx)
  }

  /** Extending `s` at the end, and possibly `r` by that same element, keeps `r` a subsequence. */
  lemma SubsequenceSnoc<T>(r: seq<T>, s: seq<T>, x: T, take: bool)
    requires IsSubsequence(r, s)
    ensures IsSubsequence(if take then r + [x] else r, s + [x])
  {
    var idx :| SubsequenceAt(r, s, idx);
    if take {
      var idx' := idx + [|s|];
      assert SubsequenceAt(r + [x], s + [x], idx');
    } else {
      assert SubsequenceAt(r, s + [x], idx);
    }
  }

  /** A subsequence has no more copies of any element than the sequence it is drawn from. */
  lemma {:induction false} SubsequenceBounds<T>(r: seq<T>, s: seq<T>, idx: seq<int>)
    requires SubsequenceAt(r, s, idx)
    ensures |r| <= |s|
    ensures forall x :: x in r ==> x in s
    ensures multiset(r) <= multiset(s)
    decreases |s|
  {
    if r != [] {
      var n := |r| - 1;
      var j := idx[n];
      var s0 := s[..j];
      var r0 := r[..n];
      var idx0 := idx[..n];
      assert SubsequenceAt(r0, s0, idx0);
      SubsequenceBounds(r0, s0, idx0);
      assert r == r0 + [s[j]];
      assert s == s0 + s[j..];
      assert s[j..] == [s[j]] + s[j + 1..];
    }
  }
}
