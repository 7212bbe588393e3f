/**
 * The 10-sample integer moving average used for the timing labels of the
 * door-detection screen (`MovingAverageFilterRoom`) and of the segmentation
 * screen (`MovingAverageFilterSegment`): the two classes are identical, so
 * they are one class here.
 */
module MovingAverage {
  import opened Numeric
  import opened Window

  const MaxCount: nat := 10

  function Sum(s: seq<int>): int
    decreases |s|
  {
    if |s| == 0 then 0 else Sum(s[..|s| - 1]) + s[|s| - 1]
  }

  function Smallest(s: seq<int>): (m: int)
    requires |s| > 0
    ensures m in s && forall i :: 0 <= i < |s| ==> m <= s[i]
    decreases |s|
  {
    if |s| == 1 then s[0]
    else
      var m := Smallest(s[..|s| - 1]);
      if s[|s| - 1] < m then s[|s| - 1] else m
  }

  function Largest(s: seq<int>): (m: int)
    requires |s| > 0
    ensures m in s && forall i :: 0 <= i < |s| ==> s[i] <= m
    decreases |s|
  {
    if |s| == 1 then s[0]
    else
      var m := Largest(s[..|s| - 1]);
      if s[|s| - 1] > m then s[|s| - 1] else m
  }

  /** `Int(Double(sum) / Double(count))`, and 0 for an empty window. */
  function TruncAverage(s: seq<int>): int {
    if |s| == 0 then 0 else Trunc(Sum(s) as real / |s| as real)
  }

  lemma {:induction false} SumBounds(s: seq<int>, lo: int, hi: int)
    requires forall i :: 0 <= i < |s| ==> lo <= s[i] <= hi
    ensures |s| * lo <= Sum(s) <= |s| * hi
    decreases |s|
  {
    if |s| > 0 {
      SumBounds(s[..|s| - 1], lo, hi);
      assert |s| * lo == (|s| - 1) * lo + lo;
      assert |s| * hi == (|s| - 1) * hi + hi;
    }
  }

  /**
   * The average of a non-empty window lies between its smallest and its
   * largest sample, whatever their signs: truncation toward zero never
   * leaves that range because its ends are integers.
   */
  lemma AverageWithinRange(s: seq<int>)
    requires |s| > 0
    ensures Smallest(s) <= TruncAverage(s) <= Largest(s)
  {
    var lo, hi := Smallest(s), Largest(s);
    SumBounds(s, lo, hi);
    MeanBounds(Sum(s), |s|, lo, hi);
    TruncWithin(Sum(s) as real / |s| as real, lo, hi);
  }

  lemma MeanBounds(sum: int, n: int, lo: int, hi: int)
    requires n > 0 && n * lo <= sum <= n * hi
    ensures lo as real <= sum as real / n as real <= hi as real
  {
    var m := sum as real / n as real;
    assert m * n as real == sum as real;
    assert (n * lo) as real == n as real * lo as real;
    assert (n * hi) as real == n as real * hi as real;
  }

  lemma TruncWithin(x: real, lo: int, hi: int)
    requires lo as real <= x <= hi as real
    ensures lo <= Trunc(x) <= hi
  {
  }

  /**
   * Truncating the real quotient is integer division rounded toward zero:
   * the average times the count is the largest multiple of the count not
   * beyond the sum on the sum's side of zero.
   */
  lemma TruncQuotient(sum: int, n: int)
    requires n > 0
    ensures var v := Trunc(sum as real / n as real);
      && (sum >= 0 ==> v * n <= sum < (v + 1) * n)
      && (sum < 0 ==> (v - 1) * n < sum <= v * n)
  {
    var x := sum as real / n as real;
    var v := Trunc(x);
    assert x * n as real == sum as real;
    if sum >= 0 {
      QuotientBelow(v, x, n, sum);
    } else {
      QuotientAbove(v, x, n, sum);
    }
  }

  lemma QuotientBelow(v: int, x: real, n: int, sum: int)
    requires n > 0 && x * n as real == sum as real && v as real <= x < v as real + 1.0
    ensures v * n <= sum < (v + 1) * n
  {
    ScaleBetween(v as real, x, v as real + 1.0, n as real);
    CastMul(v, n);
    CastMul(v + 1, n);
  }

  lemma QuotientAbove(v: int, x: real, n: int, sum: int)
    requires n > 0 && x * n as real == sum as real && v as real - 1.0 < x <= v as real
    ensures (v - 1) * n < sum <= v * n
  {
    ScaleBetween(v as real - 1.0, x, v as real, n as real);
    CastMul(v - 1, n);
    CastMul(v, n);
  }

  lemma ScaleBetween(lo: real, x: real, hi: real, k: real)
    requires k > 0.0 && lo <= x <= hi
    ensures lo * k <= x * k <= hi * k
    ensures lo < x ==> lo * k < x * k
    ensures x < hi ==> x * k < hi * k
  {
  }

  lemma CastMul(a: int, b: int)
    ensures (a * b) as real == a as real * b as real
  {
  }

  /** A constant window averages to that constant. */
  lemma AverageOfConstant(s: seq<int>, c: int)
    requires |s| > 0 && forall i :: 0 <= i < |s| ==> s[i] == c
    ensures TruncAverage(s) == c
  {
    AverageWithinRange(s);
  }

  class MovingAverageFilter {
    var arr: seq<int>

    ghost predicate Valid()
      reads this
    {
      |arr| <= MaxCount
    }

    constructor()
      ensures arr == [] && Valid()
    {
      arr := [];
    }

    /** Appends a sample; once there are more than ten, the oldest one is dropped. */
    method Append(element: int)
      requires Valid()
      modifies this
      ensures Valid()
      ensures arr == Newest(old(arr) + [element], MaxCount)
    {
      arr := arr + [element];
      if |arr| > MaxCount {
        arr := arr[1..];
      }
    }

    function AverageValue(): (v: int)
      reads this
      ensures |arr| == 0 ==> v == 0
      ensures |arr| > 0 ==> Smallest(arr) <= v <= Largest(arr)
      ensures |arr| > 0 && Sum(arr) >= 0 ==> v * |arr| <= Sum(arr) < (v + 1) * |arr|
      ensures |arr| > 0 && Sum(arr) < 0 ==> (v - 1) * |arr| < Sum(arr) <= v * |arr|
    {
      if |arr| == 0 then 0
      else
        AverageWithinRange(arr);
        TruncQuotient(Sum(arr), |arr|);
        TruncAverage(arr)
    }
  }

  /** After any sequence of appends, the filter holds the newest ten samples of the whole history. */
  method AppendAll(f: MovingAverageFilter, samples: seq<int>)
    requires f.Valid()
    modifies f
    ensures f.Valid()
    ensures f.arr == Newest(old(f.arr) + samples, MaxCount)
  {
    var i := 0;
    while i < |samples|
      invariant 0 <= i <= |samples|
      invariant f.Valid()
      invariant f.arr == Newest(old(f.arr) + samples[..i], MaxCount)
    {
      NewestAppend(old(f.arr) + samples[..i], samples[i], MaxCount);
      assert old(f.arr) + samples[..i + 1] == old(f.arr) + samples[..i] + [samples[i]];
      f.Append(samples[i]);
      i := i + 1;
    }
    assert samples[..i] == samples;
  }
}
