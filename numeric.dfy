/** Exact arithmetic shared by both dashboards: missing values, sums and means
    that skip missing entries, the sample variance, half-to-even rounding and
    clipping. Metric values are `real`, so nothing here rounds except
    `RoundHalfEven`. */
module Numeric {

  /** A value that may be missing (a NaN or None cell of a dataframe). */
  datatype Option<T> = None | Some(value: T)

  /** Outcome of a step that can raise. */
  datatype Result<T, E> = Success(value: T) | Failure(error: E)

  /** The error the scripts raise: a missing value meets `astype('int')`. */
  datatype Error = CannotCastNaNToInt

  function Sum(xs: seq<real>): (total: real)
  {
    if xs == [] then 0.0 else xs[0] + Sum(xs[1..])
  }

  /** Arithmetic mean of a non-empty series. */
  function Mean(xs: seq<real>): (mean: real)
    requires |xs| > 0
  {
    Sum(xs) / (|xs| as real)
  }

  lemma {:induction false} SumConcat(a: seq<real>, b: seq<real>)
    ensures Sum(a + b) == Sum(a) + Sum(b)
  {
    if a != [] {
      assert (a + b)[1..] == a[1..] + b;
      SumConcat(a[1..], b);
    } else {
      assert a + b == b;
    }
  }

  /** Every value less `m`. */
  function Shift(xs: seq<real>, m: real): (r: seq<real>)
    ensures |r| == |xs|
  {
    if xs == [] then [] else [xs[0] - m] + Shift(xs[1..], m)
  }

  lemma {:induction false} ShiftAt(xs: seq<real>, m: real, i: int)
    requires 0 <= i < |xs|
    ensures Shift(xs, m)[i] == xs[i] - m
  {
    if i > 0 {
      ShiftAt(xs[1..], m, i - 1);
    }
  }

  /** Every value divided by `d`. */
  function Divide(xs: seq<real>, d: real): (r: seq<real>)
    requires d != 0.0
    ensures |r| == |xs|
    ensures forall i | 0 <= i < |r| :: r[i] == xs[i] / d
  {
    if xs == [] then [] else [xs[0] / d] + Divide(xs[1..], d)
  }

  /** Dividing each value by `d` divides the sum by `d`. */
  lemma {:induction false} SumDivide(xs: seq<real>, d: real)
    requires d != 0.0
    ensures Sum(Divide(xs, d)) == Sum(xs) / d
  {
    if xs != [] {
      SumDivide(xs[1..], d);
      assert xs[0] / d + Sum(xs[1..]) / d == (xs[0] + Sum(xs[1..])) / d;
    }
  }

  lemma {:induction false} ShiftConcat(a: seq<real>, b: seq<real>, m: real)
    ensures Shift(a + b, m) == Shift(a, m) + Shift(b, m)
  {
    if a != [] {
      assert (a + b)[1..] == a[1..] + b;
      ShiftConcat(a[1..], b, m);
    } else {
      assert a + b == b;
    }
  }

  /** Subtracting `m` from each of n values takes n times `m` off the sum. */
  lemma {:induction false} SumShift(xs: seq<real>, m: real)
    ensures Sum(Shift(xs, m)) == Sum(xs) - (|xs| as real) * m
  {
    if xs != [] {
      SumShift(xs[1..], m);
      var n := (|xs| - 1) as real;
      assert (n + 1.0) * m == n * m + m;
    }
  }

  /** The entries that are present, in order (what pandas' skipna keeps). */
  function Present(s: seq<Option<real>>): (r: seq<real>)
    ensures |r| <= |s|
    ensures |r| == 0 <==> forall i | 0 <= i < |s| :: s[i].None?
  {
    if s == [] then []
    else
      var rest := Present(s[1..]);
      assert forall i | 1 <= i < |s| :: s[i] == s[1..][i - 1];
      if s[0].Some? then [s[0].value] + rest else rest
  }

  lemma {:induction false} PresentConcat(a: seq<Option<real>>, b: seq<Option<real>>)
    ensures Present(a + b) == Present(a) + Present(b)
  {
    if a != [] {
      assert (a + b)[1..] == a[1..] + b;
      PresentConcat(a[1..], b);
    } else {
      assert a + b == b;
    }
  }

  /** Every entry is present. */
  predicate AllPresent(s: seq<Option<real>>)
  {
    forall i | 0 <= i < |s| :: s[i].Some?
  }

  /** With nothing missing, the present values are the entries themselves. */
  lemma {:induction false} PresentAll(s: seq<Option<real>>)
    requires AllPresent(s)
    ensures |Present(s)| == |s|
    ensures forall i | 0 <= i < |s| :: Present(s)[i] == s[i].value
  {
    if s != [] {
      assert AllPresent(s[1..]) by {
        forall i | 0 <= i < |s| - 1 ensures s[1..][i].Some? { assert s[1..][i] == s[i + 1]; }
      }
      PresentAll(s[1..]);
    }
  }

  /** pandas `mean()` (and `np.nanmean`): the mean of the present entries,
      missing when no entry is present. */
  function MeanPresent(s: seq<Option<real>>): (r: Option<real>)
    ensures r.None? <==> forall i | 0 <= i < |s| :: s[i].None?
    ensures r.Some? ==> r.value * (|Present(s)| as real) == Sum(Present(s))
  {
    var p := Present(s);
    if |p| == 0 then None else Some(Mean(p))
  }

  /** The present values less their mean sum to zero. */
  lemma ShiftByMeanSumsToZero(s: seq<Option<real>>)
    requires MeanPresent(s).Some?
    ensures Sum(Shift(Present(s), MeanPresent(s).value)) == 0.0
  {
    var xs := Present(s);
    var n := |xs| as real;
    var m := Sum(xs) / n;
    assert MeanPresent(s).value == m;
    SumShift(xs, m);
    CountTimesMean(Sum(xs), n);
    assert Sum(Shift(xs, m)) == Sum(xs) - n * m == 0.0;
  }

  lemma CountTimesMean(total: real, n: real)
    requires n > 0.0
    ensures total - n * (total / n) == 0.0
  {
  }

  /** Sum of squared deviations from `m`. */
  function SumSquares(xs: seq<real>, m: real): (ss: real)
  {
    if xs == [] then 0.0 else (xs[0] - m) * (xs[0] - m) + SumSquares(xs[1..], m)
  }

  /** pandas `std()` squared: the sample variance, with `ddof = 1`. It is
      defined for two or more values only (with one value pandas gives NaN). */
  function SampleVariance(xs: seq<real>): (v: real)
    requires |xs| >= 2
  {
    SumSquares(xs, Mean(xs)) / ((|xs| - 1) as real)
  }

  /** `sigma` is what pandas `std()` returns for a column: NaN (unconstrained
      here) unless the column is complete with two or more entries, and then
      the non-negative square root of the sample variance. */
  predicate IsStdDev(col: seq<Option<real>>, sigma: real)
  {
    AllPresent(col) && |col| >= 2 ==>
      (PresentAll(col);
       sigma >= 0.0 && sigma * sigma == SampleVariance(Present(col)))
  }

  /** `round(y)` clipped to the whole numbers `lo..hi`: in grid units, the
      bucketing of a coordinate. */
  function GridIndex(y: real, lo: int, hi: int): (k: int)
    requires lo <= hi
    ensures lo <= k <= hi
    ensures lo as real <= y <= hi as real ==> -0.5 <= (k as real) - y <= 0.5
    ensures y < lo as real ==> k == lo
    ensures y > hi as real ==> k == hi
  {
    RoundHalfEvenOfInt(lo);
    RoundHalfEvenOfInt(hi);
    if y < lo as real then RoundHalfEvenMonotone(y, lo as real); ClipInt(RoundHalfEven(y), lo, hi)
    else if y > hi as real then RoundHalfEvenMonotone(hi as real, y); ClipInt(RoundHalfEven(y), lo, hi)
    else ClipInt(RoundHalfEven(y), lo, hi)
  }

  /** Python's `round` and numpy's `round(0)`: to the nearest integer, ties to
      the even neighbour. */
  function RoundHalfEven(x: real): (r: int)
    ensures (r as real) - 0.5 <= x <= (r as real) + 0.5
    ensures x == (r as real) + 0.5 || x == (r as real) - 0.5 ==> r % 2 == 0
  {
    var f := x.Floor;
    var d := x - f as real;
    if d < 0.5 then f
    else if d > 0.5 then f + 1
    else if f % 2 == 0 then f
    else f + 1
  }

  /** The two postconditions of `RoundHalfEven` pin its value down. */
  lemma RoundHalfEvenUnique(x: real, k: int)
    requires (k as real) - 0.5 <= x <= (k as real) + 0.5
    requires x == (k as real) + 0.5 || x == (k as real) - 0.5 ==> k % 2 == 0
    ensures RoundHalfEven(x) == k
  {
  }

  /** Rounding never reverses an order. */
  lemma RoundHalfEvenMonotone(x: real, y: real)
    requires x <= y
    ensures RoundHalfEven(x) <= RoundHalfEven(y)
  {
  }

  /** Ties go to the even neighbour, in both directions. */
  lemma RoundHalfEvenTies()
    ensures RoundHalfEven(0.5) == 0 && RoundHalfEven(1.5) == 2
    ensures RoundHalfEven(2.5) == 2 && RoundHalfEven(-0.5) == 0
    ensures RoundHalfEven(-1.5) == -2
  {
    RoundHalfEvenUnique(0.5, 0);
    RoundHalfEvenUnique(1.5, 2);
    RoundHalfEvenUnique(2.5, 2);
    RoundHalfEvenUnique(-0.5, 0);
    RoundHalfEvenUnique(-1.5, -2);
  }

  /** Rounding an integer gives it back. */
  lemma RoundHalfEvenOfInt(k: int)
    ensures RoundHalfEven(k as real) == k
  {
    RoundHalfEvenUnique(k as real, k);
  }

  /** np.clip on integers. */
  function ClipInt(x: int, lo: int, hi: int): (r: int)
    requires lo <= hi
    ensures lo <= r <= hi
    ensures lo <= x <= hi ==> r == x
    ensures x < lo ==> r == lo
    ensures x > hi ==> r == hi
  {
    if x < lo then lo else if x > hi then hi else x
  }

  /** Elementwise scaling of a possibly missing value (NaN stays NaN). */
  function MulOpt(v: Option<real>, f: real): (r: Option<real>)
    ensures r.Some? <==> v.Some?
    ensures r.Some? ==> r.value == v.value * f
  {
    if v.Some? then Some(v.value * f) else None
  }

  /** Elementwise difference; missing if either side is missing. */
  function SubOpt(a: Option<real>, b: Option<real>): (r: Option<real>)
    ensures r.Some? <==> a.Some? && b.Some?
    ensures r.Some? ==> r.value + b.value == a.value
  {
    if a.Some? && b.Some? then Some(a.value - b.value) else None
  }

  /** Subtracting `m` from one cell shifts its present value by `m`. */
  lemma SubOptShift(x: Option<real>, m: real)
    ensures Present([SubOpt(x, Some(m))]) == Shift(Present([x]), m)
  {
    if x.Some? {
      assert Present([x]) == [x.value];
      assert Present([SubOpt(x, Some(m))]) == [x.value - m];
    } else {
      assert Present([x]) == [];
      assert Present([SubOpt(x, Some(m))]) == [];
    }
  }

  /** An entry that occurs at two positions is counted twice. */
  lemma MultisetCountOfDuplicate<T>(t: seq<T>, i: int, j: int)
    requires 0 <= i < j < |t|
    ensures t[i] == t[j] ==> multiset(t)[t[i]] >= 2
  {
    assert t == t[..i] + [t[i]] + t[i + 1..j] + [t[j]] + t[j + 1..];
  }

  predicate NoDup<T(==)>(s: seq<T>)
  {
    forall i, j | 0 <= i < j < |s| :: s[i] != s[j]
  }
}
