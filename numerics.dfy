/**
 * The numpy and pandas primitives the forecasts are built from, over exact
 * reals: `s[-1]`, `np.linspace`, scalar-plus-array broadcasting, `min`,
 * `max`, `mean` and `np.clip`.
 */
module Numerics {

  /** Python's `s[-1]`. */
  function Last(s: seq<real>): real
    requires |s| > 0
  {
    s[|s| - 1]
  }

  /** Every sample of `s` equals `c`. */
  predicate Constant(s: seq<real>, c: real)
  {
    forall i :: 0 <= i < |s| ==> s[i] == c
  }

  predicate NonDecreasing(s: seq<real>)
  {
    forall i, j :: 0 <= i <= j < |s| ==> s[i] <= s[j]
  }

  predicate NonIncreasing(s: seq<real>)
  {
    forall i, j :: 0 <= i <= j < |s| ==> s[i] >= s[j]
  }

  /** The gap between neighbouring points of `np.linspace(start, stop, num)`. */
  function Step(start: real, stop: real, num: nat): real
    requires num >= 2
  {
    (stop - start) / ((num - 1) as real)
  }

  /**
   * `np.linspace(start, stop, num)` with its default `endpoint=True`: `num`
   * evenly spaced values from `start` to `stop`, `[start]` for one value and
   * the empty array for none.
   */
  function Linspace(start: real, stop: real, num: nat): (r: seq<real>)
    ensures |r| == num
    ensures num >= 1 ==> r[0] == start
    ensures num >= 2 ==> r[num - 1] == stop
  {
    if num == 1 then [start]
    else
      assert num >= 2 ==> ((num - 1) as real) * Step(start, stop, num) == stop - start;
      seq(num, i requires 0 <= i < num => start + (i as real) * Step(start, stop, num))
  }

  /** Neighbouring points of a linspace are one `Step` apart. */
  lemma LinspaceEvenlySpaced(start: real, stop: real, num: nat, i: nat)
    requires num >= 2 && i + 1 < num
    ensures Linspace(start, stop, num)[i + 1] - Linspace(start, stop, num)[i] == Step(start, stop, num)
  {
    var d := Step(start, stop, num);
    assert (i + 1) as real * d == i as real * d + d;
  }

  /** A product of two non-negative reals is non-negative. */
  lemma ProductNonNegative(x: real, y: real)
    requires x >= 0.0 && y >= 0.0
    ensures x * y >= 0.0
  {
  }

  /** A linspace runs in the direction from `start` to `stop`. */
  lemma LinspaceOrdered(start: real, stop: real, num: nat)
    ensures start <= stop ==> NonDecreasing(Linspace(start, stop, num))
    ensures stop <= start ==> NonIncreasing(Linspace(start, stop, num))
  {
    var r := Linspace(start, stop, num);
    if num >= 2 {
      var d := Step(start, stop, num);
      assert start <= stop ==> d >= 0.0;
      assert stop <= start ==> d <= 0.0;
      forall i, j | 0 <= i <= j < num
        ensures start <= stop ==> r[i] <= r[j]
        ensures stop <= start ==> r[i] >= r[j]
      {
        assert r[j] - r[i] == (j - i) as real * d;
        if start <= stop {
          ProductNonNegative((j - i) as real, d);
        } else {
          ProductNonNegative((j - i) as real, -d);
        }
      }
    }
  }

  /** `c + a` for a scalar `c` and a numpy array `a`. */
  function Shift(c: real, s: seq<real>): (r: seq<real>)
    ensures |r| == |s|
    ensures forall i :: 0 <= i < |s| ==> r[i] - s[i] == c
  {
    seq(|s|, i requires 0 <= i < |s| => c + s[i])
  }

  /** Adding a scalar keeps the direction of a sequence. */
  lemma ShiftKeepsOrder(c: real, s: seq<real>)
    ensures NonDecreasing(s) ==> NonDecreasing(Shift(c, s))
    ensures NonIncreasing(s) ==> NonIncreasing(Shift(c, s))
  {
  }

  /** A linspace from 0 to 0, shifted by `c`, is `num` copies of `c`. */
  lemma FlatRamp(c: real, num: nat)
    ensures Shift(c, Linspace(0.0, 0.0, num)) == seq(num, i => c)
  {
    var r := Shift(c, Linspace(0.0, 0.0, num));
    if num >= 2 {
      forall i | 0 <= i < num ensures r[i] == c {
        assert Linspace(0.0, 0.0, num)[i] == 0.0;
      }
    }
  }

  /** `Series.min()`: the smallest sample, which is one of the samples. */
  function Min(s: seq<real>): (m: real)
    requires |s| > 0
    ensures m in s
    ensures forall i :: 0 <= i < |s| ==> m <= s[i]
  {
    if |s| == 1 then s[0]
    else
      var rest := Min(s[1..]);
      if s[0] <= rest then s[0] else rest
  }

  /** `Series.max()`: the largest sample, which is one of the samples. */
  function Max(s: seq<real>): (m: real)
    requires |s| > 0
    ensures m in s
    ensures forall i :: 0 <= i < |s| ==> s[i] <= m
  {
    if |s| == 1 then s[0]
    else
      var rest := Max(s[1..]);
      if s[0] >= rest then s[0] else rest
  }

  function Sum(s: seq<real>): real
  {
    if s == [] then 0.0 else s[0] + Sum(s[1..])
  }

  /** A sum of `|s|` terms each within `[lo, hi]` lies within `[|s|*lo, |s|*hi]`. */
  lemma {:induction false} SumBounds(s: seq<real>, lo: real, hi: real)
    requires forall i :: 0 <= i < |s| ==> lo <= s[i] <= hi
    ensures (|s| as real) * lo <= Sum(s) <= (|s| as real) * hi
  {
    if s != [] {
      SumBounds(s[1..], lo, hi);
      assert (|s| as real) * lo == lo + ((|s| - 1) as real) * lo;
      assert (|s| as real) * hi == hi + ((|s| - 1) as real) * hi;
    }
  }

  /** Dividing by a positive count keeps a bound scaled by that count. */
  lemma QuotientBounds(total: real, n: real, lo: real, hi: real)
    requires n > 0.0 && n * lo <= total <= n * hi
    ensures lo <= total / n <= hi
  {
    var q := total / n;
    assert n * (q - lo) == total - n * lo >= 0.0;
    assert n * (hi - q) == n * hi - total >= 0.0;
  }

  /** Dividing by a positive number keeps the sign and is undone by multiplying back. */
  lemma ScaledQuotient(x: real, d: real)
    requires d > 0.0
    ensures (x / d) * d == x
    ensures x / d >= 0.0 <==> x >= 0.0
  {
    if x >= 0.0 {
      QuotientBounds(x, d, 0.0, x / d);
    } else {
      QuotientBounds(x, d, x / d, 0.0);
    }
  }

  /** An average of samples that all lie in `[lo, hi]` lies there too. */
  lemma AverageWithin(s: seq<real>, lo: real, hi: real)
    requires |s| > 0
    requires forall i :: 0 <= i < |s| ==> lo <= s[i] <= hi
    ensures lo <= Sum(s) / (|s| as real) <= hi
  {
    SumBounds(s, lo, hi);
    QuotientBounds(Sum(s), |s| as real, lo, hi);
  }

  /** `Series.mean()`: it lies between the smallest and the largest sample. */
  function Mean(s: seq<real>): (m: real)
    requires |s| > 0
    ensures Min(s) <= m <= Max(s)
  {
    AverageWithin(s, Min(s), Max(s));
    Sum(s) / (|s| as real)
  }

  /** `np.clip(x, lo, hi)`: `x` pulled into `[lo, hi]`, unchanged when already inside. */
  function Clip(x: real, lo: real, hi: real): (r: real)
    requires lo <= hi
    ensures lo <= r <= hi
    ensures lo <= x <= hi ==> r == x
    ensures x < lo ==> r == lo
    ensures x > hi ==> r == hi
  {
    if x < lo then lo else if x > hi then hi else x
  }

  /** A constant series has that constant as its minimum, maximum, mean and last sample. */
  lemma ConstantStatistics(s: seq<real>, c: real)
    requires |s| > 0 && Constant(s, c)
    ensures Min(s) == c && Max(s) == c && Mean(s) == c && Last(s) == c
  {
  }
}
