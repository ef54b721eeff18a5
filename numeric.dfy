/** Arithmetic shared by the risk engine: values that may be NaN, sums, means
    and variances over finite sequences of reals, and small searches over
    sequences. Reals stand for the source's floats; rounding is not modelled. */
module Numeric {

  /** A float as numpy and pandas hold it: a real value or NaN. */
  datatype Num = Val(v: real) | NaN
  {
    /** Multiplication by a real scalar; NaN absorbs it, as in numpy. */
    function Times(c: real): Num
    {
      if Val? then Val(v * c) else NaN
    }

    /** The value, with NaN read as 0 (how pandas' `sum` skips it). */
    function OrZero(): real
    {
      if Val? then v else 0.0
    }
  }

  /** Sum of a sequence, accumulated from the front as Python's `sum` does
      (the recursion peels the last term). */
  function Sum(s: seq<real>): real
  {
    if |s| == 0 then 0.0 else Sum(s[..|s| - 1]) + s[|s| - 1]
  }

  lemma {:induction false} SumAppend(a: seq<real>, b: seq<real>)
    ensures Sum(a + b) == Sum(a) + Sum(b)
  {
    if |b| == 0 {
      assert a + b == a;
    } else {
      assert (a + b)[..|a + b| - 1] == a + b[..|b| - 1];
      SumAppend(a, b[..|b| - 1]);
    }
  }

  lemma {:induction false} SumFirst(s: seq<real>)
    requires |s| > 0
    ensures Sum(s) == s[0] + Sum(s[1..])
  {
    assert s == [s[0]] + s[1..];
    SumAppend([s[0]], s[1..]);
    assert [s[0]][..0] == [];
  }

  /** A sum of non-negative terms is non-negative, and it is zero exactly when
      every term is zero. */
  lemma {:induction false} SumNonNegative(s: seq<real>)
    requires forall i :: 0 <= i < |s| ==> s[i] >= 0.0
    ensures Sum(s) >= 0.0
    ensures Sum(s) == 0.0 <==> forall i :: 0 <= i < |s| ==> s[i] == 0.0
  {
    if |s| > 0 {
      var init := s[..|s| - 1];
      assert forall i :: 0 <= i < |init| ==> init[i] == s[i];
      SumNonNegative(init);
      if Sum(s) == 0.0 {
        assert Sum(init) == 0.0 && s[|s| - 1] == 0.0;
        forall i | 0 <= i < |s| ensures s[i] == 0.0 {
          if i < |s| - 1 { assert init[i] == s[i]; }
        }
      }
    }
  }

  /** Summing `n` copies of `c` gives `n * c`. */
  lemma {:induction false} SumConstant(s: seq<real>, c: real)
    requires forall i :: 0 <= i < |s| ==> s[i] == c
    ensures Sum(s) == (|s| as real) * c
  {
    if |s| > 0 {
      var init := s[..|s| - 1];
      assert forall i :: 0 <= i < |init| ==> init[i] == c;
      SumConstant(init, c);
    }
  }

  /** Arithmetic mean of a non-empty sequence. */
  function Mean(s: seq<real>): real
    requires |s| > 0
  {
    Sum(s) / (|s| as real)
  }

  lemma MeanOfConstant(s: seq<real>, c: real)
    requires |s| > 0
    requires forall i :: 0 <= i < |s| ==> s[i] == c
    ensures Mean(s) == c
  {
    SumConstant(s, c);
  }

  /** A sequence whose total is `|s| * x` has mean `x`. */
  lemma MeanFromTotal(s: seq<real>, x: real)
    requires |s| > 0 && Sum(s) == (|s| as real) * x
    ensures Mean(s) == x
  {
  }

  /** The squared distance of each term from `m`. */
  function SquaredDeviations(s: seq<real>, m: real): (d: seq<real>)
    ensures |d| == |s|
  {
    seq(|s|, i requires 0 <= i < |s| => Sq(s[i] - m))
  }

  /** The square of a real. */
  function Sq(x: real): real
  {
    x * x
  }

  /** A square is non-negative and vanishes only at zero. */
  lemma SqFacts(x: real)
    ensures Sq(x) >= 0.0
    ensures x != 0.0 ==> Sq(x) > 0.0
  {
    if x > 0.0 {
      calc { Sq(x); == x * x; > 0.0; }
    } else if x < 0.0 {
      calc { Sq(x); == (-x) * (-x); > 0.0; }
    }
  }

  /** Population variance (numpy's default, `ddof = 0`). */
  function PopVariance(s: seq<real>): real
    requires |s| > 0
  {
    Sum(SquaredDeviations(s, Mean(s))) / (|s| as real)
  }

  /** Sample variance (pandas' default, `ddof = 1`). */
  function SampleVariance(s: seq<real>): real
    requires |s| >= 2
  {
    Sum(SquaredDeviations(s, Mean(s))) / ((|s| - 1) as real)
  }

  /** All terms of `s` are equal. */
  predicate Constant(s: seq<real>)
  {
    forall i, j :: 0 <= i < |s| && 0 <= j < |s| ==> s[i] == s[j]
  }

  /** The squared deviations from the mean vanish exactly when the sequence
      is constant; otherwise their sum is positive. */
  lemma {:induction false} DeviationsVanishIffConstant(s: seq<real>)
    requires |s| > 0
    ensures Sum(SquaredDeviations(s, Mean(s))) >= 0.0
    ensures Sum(SquaredDeviations(s, Mean(s))) == 0.0 <==> Constant(s)
  {
    var m := Mean(s);
    var d := SquaredDeviations(s, m);
    forall i | 0 <= i < |s| ensures d[i] >= 0.0 && (d[i] == 0.0 <==> s[i] == m) {
      SqFacts(s[i] - m);
    }
    SumNonNegative(d);
    if Constant(s) {
      MeanOfConstant(s, s[0]);
      assert forall i :: 0 <= i < |s| ==> d[i] == 0.0;
    }
    if Sum(d) == 0.0 {
      assert forall i :: 0 <= i < |s| ==> s[i] == m;
    }
  }

  /** Population variance is non-negative and zero exactly for a constant
      sequence. */
  lemma PopVarianceZeroIffConstant(s: seq<real>)
    requires |s| > 0
    ensures PopVariance(s) >= 0.0
    ensures PopVariance(s) == 0.0 <==> Constant(s)
  {
    DeviationsVanishIffConstant(s);
  }

  /** Sample variance is non-negative and zero exactly for a constant
      sequence. */
  lemma SampleVarianceZeroIffConstant(s: seq<real>)
    requires |s| >= 2
    ensures SampleVariance(s) >= 0.0
    ensures SampleVariance(s) == 0.0 <==> Constant(s)
  {
    DeviationsVanishIffConstant(s);
  }

  /** `b` raised to a natural power. */
  function Pow(b: real, k: nat): real
  {
    if k == 0 then 1.0 else b * Pow(b, k - 1)
  }

  lemma {:induction false} PowNonNegative(b: real, k: nat)
    requires b >= 0.0
    ensures Pow(b, k) >= 0.0
    ensures b > 0.0 ==> Pow(b, k) > 0.0
  {
    if k > 0 {
      PowNonNegative(b, k - 1);
    }
  }

  /** The largest element of a non-empty sequence. */
  function MaxOf(s: seq<int>): (m: int)
    requires |s| > 0
    ensures exists i :: 0 <= i < |s| && s[i] == m
    ensures forall i :: 0 <= i < |s| ==> s[i] <= m
  {
    if |s| == 1 then s[0]
    else
      var rest := MaxOf(s[1..]);
      assert forall i :: 1 <= i < |s| ==> s[i] == s[1..][i - 1];
      if s[0] >= rest then s[0] else rest
  }

  /** The position of the first occurrence of `x` in `s`, or `|s|` when there
      is none. */
  function FirstIndex<T(==)>(s: seq<T>, x: T): (i: nat)
    ensures i <= |s|
    ensures i < |s| ==> s[i] == x
    ensures forall j :: 0 <= j < i ==> s[j] != x
  {
    if |s| == 0 then 0
    else if s[0] == x then 0
    else 1 + FirstIndex(s[1..], x)
  }

  /** The position of the first maximal element: the maximum, then the first
      position holding it. */
  function FirstMaxIndex(s: seq<int>): (i: nat)
    requires |s| > 0
    ensures i < |s|
    ensures forall j :: 0 <= j < |s| ==> s[j] <= s[i]
    ensures forall j :: 0 <= j < i ==> s[j] < s[i]
  {
    FirstIndex(s, MaxOf(s))
  }
  // ---------------------------------------------------------------------
  // Linearity of sums

  /** Term-by-term sum of two sequences of equal length. */
  function Plus(a: seq<real>, b: seq<real>): (r: seq<real>)
    requires |a| == |b|
    ensures |r| == |a|
  {
    seq(|a|, i requires 0 <= i < |a| => a[i] + b[i])
  }

  /** Every term multiplied by `c`. */
  function Scale(c: real, s: seq<real>): (r: seq<real>)
    ensures |r| == |s|
  {
    seq(|s|, i requires 0 <= i < |s| => c * s[i])
  }

  /** A share of a nonzero total, times the total, is the part. */
  lemma ShareTimesTotal(c: real, t: real, x: real)
    requires t != 0.0 && x == c / t
    ensures t * x == c
  {
  }

  /** Each term's share of a nonzero total. */
  function Shares(v: seq<real>): (w: seq<real>)
    requires Sum(v) != 0.0
    ensures |w| == |v|
  {
    seq(|v|, i requires 0 <= i < |v| => v[i] / Sum(v))
  }

  /** A share of a nonzero total, times the total, gives back the term. */
  lemma ShareOfTotal(v: seq<real>, i: nat)
    requires Sum(v) != 0.0 && i < |v|
    ensures Sum(v) * Shares(v)[i] == v[i]
  {
    ShareTimesTotal(v[i], Sum(v), Shares(v)[i]);
  }

  /** Parts that each give back their term when multiplied by a nonzero
      total add up to one. */
  lemma PartsSumToOne(v: seq<real>, w: seq<real>)
    requires Sum(v) != 0.0 && |w| == |v|
    requires forall i :: 0 <= i < |v| ==> Sum(v) * w[i] == v[i]
    ensures Sum(w) == 1.0
  {
    var t := Sum(v);
    calc {
      t * Sum(w);
    == { SumScale(t, w); }
      Sum(Scale(t, w));
    == { ScaledBy(t, w, v); }
      t;
    }
    CancelFactor(t, Sum(w));
  }

  lemma ScaledBy(t: real, w: seq<real>, v: seq<real>)
    requires |w| == |v|
    requires forall i :: 0 <= i < |v| ==> t * w[i] == v[i]
    ensures Scale(t, w) == v
  {
    assert forall i :: 0 <= i < |v| ==> Scale(t, w)[i] == v[i];
  }

  /** Shares of a nonzero total add up to one. */
  lemma SharesSumToOne(v: seq<real>)
    requires Sum(v) != 0.0
    ensures Sum(Shares(v)) == 1.0
  {
    SharesTimesTotal(v);
    PartsSumToOne(v, Shares(v));
  }

  lemma SharesTimesTotal(v: seq<real>)
    requires Sum(v) != 0.0
    ensures forall i :: 0 <= i < |v| ==> Sum(v) * Shares(v)[i] == v[i]
  {
    forall i | 0 <= i < |v| ensures Sum(v) * Shares(v)[i] == v[i] {
      ShareOfTotal(v, i);
    }
  }

  lemma CancelFactor(t: real, x: real)
    requires t != 0.0 && t * x == t
    ensures x == 1.0
  {
    assert t * (x - 1.0) == 0.0;
  }

  /** Term-by-term product of two sequences of equal length. */
  function Products(a: seq<real>, b: seq<real>): (r: seq<real>)
    requires |a| == |b|
    ensures |r| == |a|
  {
    seq(|a|, i requires 0 <= i < |a| => a[i] * b[i])
  }

  lemma {:induction false} SumPlus(a: seq<real>, b: seq<real>)
    requires |a| == |b|
    ensures Sum(Plus(a, b)) == Sum(a) + Sum(b)
  {
    if |a| > 0 {
      var n := |a| - 1;
      assert Plus(a, b)[..n] == Plus(a[..n], b[..n]);
      SumPlus(a[..n], b[..n]);
    }
  }

  /** Term-by-term difference of two sequences of equal length. */
  function Minus(a: seq<real>, b: seq<real>): (r: seq<real>)
    requires |a| == |b|
    ensures |r| == |a|
  {
    seq(|a|, i requires 0 <= i < |a| => a[i] - b[i])
  }

  lemma {:induction false} SumMinus(a: seq<real>, b: seq<real>)
    requires |a| == |b|
    ensures Sum(Minus(a, b)) == Sum(a) - Sum(b)
  {
    if |a| > 0 {
      var n := |a| - 1;
      assert Minus(a, b)[..n] == Minus(a[..n], b[..n]);
      SumMinus(a[..n], b[..n]);
    }
  }

  lemma {:induction false} SumScale(c: real, s: seq<real>)
    ensures Sum(Scale(c, s)) == c * Sum(s)
  {
    if |s| > 0 {
      var n := |s| - 1;
      assert forall i :: 0 <= i < n ==> Scale(c, s)[..n][i] == Scale(c, s[..n])[i];
      assert Scale(c, s)[..n] == Scale(c, s[..n]);
      SumScale(c, s[..n]);
    }
  }

  lemma ScalePrefix(c: real, s: seq<real>, k: nat)
    requires k <= |s|
    ensures Scale(c, s)[..k] == Scale(c, s[..k])
  {
    assert forall i :: 0 <= i < k ==> Scale(c, s)[..k][i] == Scale(c, s[..k])[i];
  }

  // ---------------------------------------------------------------------
  // Matrices as sequences of rows

  /** Every row of `m` has `width` entries. */
  predicate Rectangular(m: seq<seq<real>>, width: nat)
  {
    forall i :: 0 <= i < |m| ==> |m[i]| == width
  }

  /** Column `j` of a rectangular matrix. */
  function Column(m: seq<seq<real>>, width: nat, j: nat): (c: seq<real>)
    requires Rectangular(m, width) && j < width
    ensures |c| == |m|
  {
    seq(|m|, i requires 0 <= i < |m| => m[i][j])
  }

  /** The total of each row. */
  function RowSums(m: seq<seq<real>>): (r: seq<real>)
    ensures |r| == |m|
  {
    seq(|m|, i requires 0 <= i < |m| => Sum(m[i]))
  }

  /** The total of each column. */
  function ColumnSums(m: seq<seq<real>>, width: nat): (r: seq<real>)
    requires Rectangular(m, width)
    ensures |r| == width
  {
    seq(width, j requires 0 <= j < width => Sum(Column(m, width, j)))
  }

  /** Adding up a matrix row by row or column by column gives the same
      total. */
  lemma {:induction false} SumInterchange(m: seq<seq<real>>, width: nat)
    requires Rectangular(m, width)
    ensures Sum(RowSums(m)) == Sum(ColumnSums(m, width))
  {
    if |m| == 0 {
      SumConstant(ColumnSums(m, width), 0.0);
    } else {
      var n := |m| - 1;
      var init, last := m[..n], m[n];
      assert RowSums(m)[..n] == RowSums(init);
      SumInterchange(init, width);
      forall j | 0 <= j < width
        ensures ColumnSums(m, width)[j] == Plus(ColumnSums(init, width), last)[j]
      {
        assert Column(m, width, j)[..n] == Column(init, width, j);
      }
      assert ColumnSums(m, width) == Plus(ColumnSums(init, width), last);
      SumPlus(ColumnSums(init, width), last);
    }
  }
  /** `sqrt` behaves as the square root on the non-negative reals. */
  ghost predicate IsSqrt(sqrt: real -> real)
  {
    forall x :: x >= 0.0 ==> sqrt(x) >= 0.0 && Sq(sqrt(x)) == x
  }

  /** The square root of a non-negative number is non-negative, and zero
      exactly at zero. */
  lemma SqrtZeroIff(sqrt: real -> real, x: real)
    requires IsSqrt(sqrt) && x >= 0.0
    ensures sqrt(x) >= 0.0
    ensures sqrt(x) == 0.0 <==> x == 0.0
  {
    SqFacts(sqrt(x));
    assert Sq(0.0) == 0.0;
  }
}
