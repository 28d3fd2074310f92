/** Facts about sets of indices `{0, ..., n-1}`, the numbering of quiz questions. */
module Indices {

  /** A set of indices below `n` has at most `n` elements, and exactly `n`
      when it holds every index below `n`. */
  lemma {:induction false} FullIffEveryIndex(s: set<int>, n: nat)
    requires forall i :: i in s ==> 0 <= i < n
    ensures |s| <= n
    ensures |s| == n <==> forall i :: 0 <= i < n ==> i in s
  {
    if n == 0 {
      assert forall i :: i !in s;
      assert s == {};
    } else if n - 1 in s {
      var rest := s - {n - 1};
      FullIffEveryIndex(rest, n - 1);
      assert s == rest + {n - 1};
    } else {
      FullIffEveryIndex(s, n - 1);
    }
  }
}
