/** Numeric building blocks shared by the simulations. Every `f64` of the
    Rust program is an exact `real` here; the two IEEE values that its folds
    can produce on an empty input (negative infinity for a maximum, NaN for
    an average) are `None`. */
module Numerics {

  datatype Option<+T> = None | Some(value: T)

  /** x multiplied into 1.0, n times over. */
  function Pow(x: real, n: nat): real
  {
    if n == 0 then 1.0 else Pow(x, n - 1) * x
  }

  lemma {:induction false} PowAdd(x: real, a: nat, b: nat)
    ensures Pow(x, a + b) == Pow(x, a) * Pow(x, b)
  {
    if b > 0 {
      PowAdd(x, a, b - 1);
      assert Pow(x, a + b) == Pow(x, a + b - 1) * x;
      ScaleTwice(Pow(x, a), Pow(x, b - 1), x);
    }
  }

  /** A factor in [0, 1] raised to any power stays in [0, 1]. */
  lemma {:induction false} PowUnitInterval(x: real, n: nat)
    requires 0.0 <= x <= 1.0
    ensures 0.0 <= Pow(x, n) <= 1.0
  {
    if n > 0 {
      PowUnitInterval(x, n - 1);
      var p := Pow(x, n - 1);
      ScaleBetween(p, 0.0, x, 1.0);
      assert 0.0 <= p * x <= p;
      assert Pow(x, n) == p * x;
    }
  }

  /** A factor of at least 1 never shrinks under powers, and each further
      power grows it at least by the factor. */
  lemma {:induction false} PowGrowth(x: real, n: nat)
    requires x >= 1.0
    ensures Pow(x, n) >= 1.0
    ensures n > 0 ==> Pow(x, n) >= x
  {
    if n > 0 {
      PowGrowth(x, n - 1);
      ScaleBetween(x, 1.0, Pow(x, n - 1), Pow(x, n - 1));
    }
  }

  /** The left-to-right sum `iter().sum()`. */
  function Sum(s: seq<real>): real
  {
    if |s| == 0 then 0.0 else Sum(s[..|s| - 1]) + s[|s| - 1]
  }

  lemma {:induction false} SumOfConstant(s: seq<real>, c: real)
    requires forall i :: 0 <= i < |s| ==> s[i] == c
    ensures Sum(s) == |s| as real * c
  {
    if |s| > 0 {
      SumOfConstant(s[..|s| - 1], c);
    }
  }

  lemma {:induction false} SumBoundedAbove(s: seq<real>, m: real)
    requires forall i :: 0 <= i < |s| ==> s[i] <= m
    ensures Sum(s) <= |s| as real * m
  {
    if |s| > 0 {
      SumBoundedAbove(s[..|s| - 1], m);
      StepsAdd(0.0, |s| - 1, 1, m);
    }
  }

  /** The fold `fold(f64::NEG_INFINITY, f64::max)`: `None` stands for the
      negative infinity it yields on an empty input; otherwise the value is
      an upper bound of the sequence that occurs in it. */
  function MaxOf(s: seq<real>): (r: Option<real>)
    ensures r.Some? <==> |s| > 0
    ensures r.Some? ==> forall i :: 0 <= i < |s| ==> s[i] <= r.value
    ensures r.Some? ==> exists i :: 0 <= i < |s| && s[i] == r.value
  {
    if |s| == 0 then None
    else
      var last := s[|s| - 1];
      match MaxOf(s[..|s| - 1])
      case None => Some(last)
      case Some(m) => Some(if m < last then last else m)
  }

  /** `sum / len`: `None` stands for the NaN that 0.0 / 0.0 yields on an
      empty input. */
  function Mean(s: seq<real>): (r: Option<real>)
    ensures r.Some? <==> |s| > 0
  {
    if |s| == 0 then None else Some(Sum(s) / |s| as real)
  }

  /** The average never exceeds a bound of every element ... */
  lemma MeanAtMost(s: seq<real>, m: real)
    requires |s| > 0
    requires forall i :: 0 <= i < |s| ==> s[i] <= m
    ensures Mean(s).value <= m
  {
    SumBoundedAbove(s, m);
    QuotientAtMost(Sum(s), |s| as real, m);
  }

  /** ... so in particular never exceeds the maximum of the same values. */
  lemma MeanAtMostMax(s: seq<real>)
    ensures |s| > 0 ==> Mean(s).value <= MaxOf(s).value
  {
    if |s| > 0 {
      MeanAtMost(s, MaxOf(s).value);
    }
  }

  /** The average times the count gives back the sum. */
  lemma MeanTimesCount(s: seq<real>)
    requires |s| > 0
    ensures Mean(s).value * |s| as real == Sum(s)
  {
    var n := |s| as real;
    assert (Sum(s) / n) * n == Sum(s);
  }

  /** The average of a uniform sequence is its common value. */
  lemma MeanOfConstant(s: seq<real>, c: real)
    requires |s| > 0
    requires forall i :: 0 <= i < |s| ==> s[i] == c
    ensures Mean(s) == Some(c)
  {
    var n := |s| as real;
    SumOfConstant(s, c);
    QuotientOfProduct(n, c);
    assert Mean(s).value == Sum(s) / n == (n * c) / n;
  }

  lemma ScaleTwice(a: real, p: real, q: real)
    ensures (a * p) * q == a * (p * q)
  {
  }

  /** m steps of x and then n more are m + n steps. */
  lemma StepsAdd(base: real, m: nat, n: nat, x: real)
    ensures base + m as real * x + n as real * x == base + (m + n) as real * x
  {
  }

  /** a * b lies between a * lo and a * hi for a non-negative a. */
  lemma ScaleBetween(a: real, lo: real, b: real, hi: real)
    requires 0.0 <= a && lo <= b <= hi
    ensures a * lo <= a * b <= a * hi
  {
  }

  lemma ZeroQuotient(n: real, d: real)
    requires n == 0.0 && d != 0.0
    ensures n / d == 0.0
  {
  }

  lemma QuotientAtMost(a: real, n: real, m: real)
    requires n > 0.0 && a <= n * m
    ensures a / n <= m
  {
    var q := a / n;
    assert q * n == a;
    assert (q - m) * n <= 0.0;
  }

  lemma QuotientOfProduct(n: real, m: real)
    requires n > 0.0
    ensures (n * m) / n == m
  {
  }
}
