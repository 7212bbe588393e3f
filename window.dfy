/**
 * Bounded histories: the newest `k` elements of a sequence, which is what an
 * array that is appended to and trimmed from the front retains.
 */
module Window {

  /** The last `k` elements of `s` in their original order (all of `s` when it is shorter). */
  function Newest<T>(s: seq<T>, k: nat): (r: seq<T>)
    ensures |r| == if |s| <= k then |s| else k
    ensures r == s[|s| - |r|..]
  {
    if |s| <= k then s else s[|s| - k..]
  }

  /**
   * Trimming after every append keeps exactly what trimming once at the end
   * would keep: the window is the newest `k` elements of the whole history.
   */
  lemma NewestAppend<T>(s: seq<T>, x: T, k: nat)
    ensures Newest(Newest(s, k) + [x], k) == Newest(s + [x], k)
  {
    var w := Newest(s, k);
    var lhs := Newest(w + [x], k);
    var rhs := Newest(s + [x], k);
    assert |lhs| == |rhs|;
    forall i | 0 <= i < |lhs|
      ensures lhs[i] == rhs[i]
    {
      if i == |lhs| - 1 {
        assert lhs[i] == x;
      } else {
        assert lhs[i] == w[|w| + 1 - |lhs| + i];
      }
    }
  }
}
