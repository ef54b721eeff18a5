/** The parts of pandas and numpy the portfolio table relies on: a table of
    named columns over a date index, substring tests on column names,
    aligning a dated series onto an index, row sums that skip NaN, pairwise
    covariance and the quadratic form `w^T C w`. */
module Frames {
  import opened Wrappers
  import opened Numeric

  // ---------------------------------------------------------------------
  // Column names

  /** `pattern in s`: `pattern` occurs in `s` as a contiguous block. This is
      `Series.str.contains` with a pattern free of regular-expression
      syntax. */
  predicate Contains(s: string, pattern: string)
    decreases |s|
  {
    if |s| < |pattern| then false
    else if s[..|pattern|] == pattern then true
    else Contains(s[1..], pattern)
  }

  /** `s` has `pattern` at position `i`. */
  predicate OccursAt(s: string, pattern: string, i: nat)
  {
    i + |pattern| <= |s| && s[i..i + |pattern|] == pattern
  }

  /** `Contains` finds `pattern` exactly when it occurs at some position. */
  lemma {:induction false} ContainsIff(s: string, pattern: string)
    ensures Contains(s, pattern) <==> exists i: nat :: OccursAt(s, pattern, i)
  {
    if |s| < |pattern| {
      forall i: nat ensures !OccursAt(s, pattern, i) {
      }
    } else if s[..|pattern|] == pattern {
      assert OccursAt(s, pattern, 0);
    } else {
      ContainsIff(s[1..], pattern);
      if Contains(s[1..], pattern) {
        var i: nat :| OccursAt(s[1..], pattern, i);
        assert s[i + 1..i + 1 + |pattern|] == s[1..][i..i + |pattern|];
        assert OccursAt(s, pattern, i + 1);
      } else {
        forall i: nat | OccursAt(s, pattern, i) ensures false {
          if i > 0 {
            assert s[1..][i - 1..i - 1 + |pattern|] == s[i..i + |pattern|];
            assert OccursAt(s[1..], pattern, i - 1);
          }
        }
      }
    }
  }

  /** A name ending in `pattern` contains it. */
  lemma ContainsSuffix(s: string, pattern: string)
    ensures Contains(s + pattern, pattern)
  {
    assert (s + pattern)[|s|..|s| + |pattern|] == pattern;
    assert OccursAt(s + pattern, pattern, |s|);
    ContainsIff(s + pattern, pattern);
  }

  /** Every column name carrying the suffix `_port_weighted` also contains
      `port`, as does `portfolio`. */
  lemma DerivedNamesContainPort(key: string)
    ensures Contains(key + "_port_weighted", "_port_weighted")
    ensures Contains(key + "_port_weighted", "port")
    ensures Contains("portfolio", "port")
  {
    ContainsSuffix(key, "_port_weighted");
    var s := key + "_port_weighted";
    assert s[|key| + 1..|key| + 5] == "port";
    assert OccursAt(s, "port", |key| + 1);
    ContainsIff(s, "port");
    assert OccursAt("portfolio", "port", 0);
    ContainsIff("portfolio", "port");
  }

  /** The positions, in order, of the names whose test `Contains(name,
      pattern)` comes out as `present`: the column mask
      `columns.str.contains(pattern)` or its negation `~`. */
  function Select(names: seq<string>, pattern: string, present: bool): (cols: seq<nat>)
    ensures |cols| <= |names|
  {
    if |names| == 0 then []
    else
      var n := |names| - 1;
      Select(names[..n], pattern, present) + if Contains(names[n], pattern) == present then [n] else []
  }

  /** `Select` picks only positions whose names pass the test. */
  lemma {:induction false} SelectSound(names: seq<string>, pattern: string, present: bool)
    ensures forall k :: 0 <= k < |Select(names, pattern, present)| ==>
              var i := Select(names, pattern, present)[k];
              i < |names| && Contains(names[i], pattern) == present
  {
    if |names| > 0 {
      var n := |names| - 1;
      var init := Select(names[..n], pattern, present);
      SelectSound(names[..n], pattern, present);
      forall k | 0 <= k < |init| ensures init[k] < n && names[init[k]] == names[..n][init[k]] {
      }
    }
  }

  /** `Select` picks every position whose name passes the test. */
  lemma {:induction false} SelectComplete(names: seq<string>, pattern: string, present: bool, i: nat)
    requires i < |names| && Contains(names[i], pattern) == present
    ensures i in Select(names, pattern, present)
  {
    var n := |names| - 1;
    if i < n {
      assert names[..n][i] == names[i];
      SelectComplete(names[..n], pattern, present, i);
    }
  }

  /** `Select` keeps the positions in increasing order. */
  lemma {:induction false} SelectIncreasing(names: seq<string>, pattern: string, present: bool)
    ensures forall k, l :: 0 <= k < l < |Select(names, pattern, present)| ==>
              Select(names, pattern, present)[k] < Select(names, pattern, present)[l]
  {
    if |names| > 0 {
      var n := |names| - 1;
      SelectIncreasing(names[..n], pattern, present);
      SelectSound(names[..n], pattern, present);
    }
  }

  lemma SelectLast(names: seq<string>, pattern: string, present: bool)
    requires |names| > 0
    ensures Select(names, pattern, present) ==
              Select(names[..|names| - 1], pattern, present)
              + if Contains(names[|names| - 1], pattern) == present then [|names| - 1] else []
  {
  }

  /** Of the names of a one-position table, only the position's key (when
      it lacks `port`) passes the mask `~columns.str.contains('port')`. */
  lemma OnlyKeyColumnKept(key: string)
    requires !Contains(key, "port")
    ensures Select([key, key + "_port_weighted", "portfolio"], "port", false) == [0]
  {
    var names := [key, key + "_port_weighted", "portfolio"];
    DerivedNamesContainPort(key);
    assert names[..2] == [key, key + "_port_weighted"] && names[..2][..1] == [key];
    SelectLast(names, "port", false);
    SelectLast(names[..2], "port", false);
    SelectLast(names[..2][..1], "port", false);
  }

  /** The odd positions below `2 * n`, in order. */
  function Odds(n: nat): (s: seq<nat>)
    ensures |s| == n
  {
    if n == 0 then [] else Odds(n - 1) + [2 * n - 1]
  }

  lemma {:induction false} OddsAt(n: nat, k: nat)
    requires k < n
    ensures Odds(n)[k] == 2 * k + 1
  {
    if k < n - 1 {
      OddsAt(n - 1, k);
    }
  }

  /** When the names come in pairs whose second member alone contains
      `pattern`, the matching names are the second of each pair. */
  lemma {:induction false} SelectSecondOfPairs(names: seq<string>, pattern: string, n: nat)
    requires |names| == 2 * n
    requires forall k :: 0 <= k < n ==> !Contains(names[2 * k], pattern) && Contains(names[2 * k + 1], pattern)
    ensures Select(names, pattern, true) == Odds(n)
  {
    if n > 0 {
      var shorter := names[..2 * n - 1];
      var shortest := names[..2 * n - 2];
      assert Select(shortest, pattern, true) == Odds(n - 1) by {
        assert forall k :: 0 <= k < n - 1 ==> shortest[2 * k] == names[2 * k] && shortest[2 * k + 1] == names[2 * k + 1];
        SelectSecondOfPairs(shortest, pattern, n - 1);
      }
      assert Select(shorter, pattern, true) == Select(shortest, pattern, true) by {
        assert shorter[..2 * n - 2] == shortest;
        assert shorter[2 * n - 2] == names[2 * (n - 1)];
        SelectLast(shorter, pattern, true);
      }
      calc {
        Select(names, pattern, true);
      == { assert names[..2 * n - 1] == shorter; SelectLast(names, pattern, true); }
        Select(shorter, pattern, true) + [2 * n - 1];
      ==
        Odds(n - 1) + [2 * n - 1];
      }
    }
  }

  /** The even positions below `2 * n`, in order. */
  function Evens(n: nat): (s: seq<nat>)
    ensures |s| == n
  {
    if n == 0 then [] else Evens(n - 1) + [2 * n - 2]
  }

  lemma {:induction false} EvensAt(n: nat, k: nat)
    requires k < n
    ensures Evens(n)[k] == 2 * k
  {
    if k < n - 1 {
      EvensAt(n - 1, k);
    }
  }

  /** When the names come in pairs whose second member alone contains
      `pattern`, the names without it are the first of each pair. */
  lemma {:induction false} SelectFirstOfPairs(names: seq<string>, pattern: string, n: nat)
    requires |names| == 2 * n
    requires forall k :: 0 <= k < n ==> !Contains(names[2 * k], pattern) && Contains(names[2 * k + 1], pattern)
    ensures Select(names, pattern, false) == Evens(n)
  {
    if n > 0 {
      var shorter := names[..2 * n - 1];
      var shortest := names[..2 * n - 2];
      assert Select(shortest, pattern, false) == Evens(n - 1) by {
        assert forall k :: 0 <= k < n - 1 ==> shortest[2 * k] == names[2 * k] && shortest[2 * k + 1] == names[2 * k + 1];
        SelectFirstOfPairs(shortest, pattern, n - 1);
      }
      assert Select(shorter, pattern, false) == Evens(n) by {
        assert shorter[..2 * n - 2] == shortest;
        assert shorter[2 * n - 2] == names[2 * (n - 1)];
        SelectLast(shorter, pattern, false);
      }
      assert names[..2 * n - 1] == shorter;
      assert names[2 * n - 1] == names[2 * (n - 1) + 1];
      SelectLast(names, pattern, false);
    }
  }

  // ---------------------------------------------------------------------
  // Tables

  /** A `DataFrame` over a date index: column names in insertion order and
      one column per name. */
  datatype Frame = Frame(index: seq<int>, names: seq<string>, columns: seq<seq<Num>>)
  {
    /** One name per column and one entry per date in every column. */
    predicate Shaped()
    {
      |names| == |columns| && forall c :: 0 <= c < |columns| ==> |columns[c]| == |index|
    }

    /** `df[name] = column` for a new name. */
    function Add(name: string, column: seq<Num>): (f: Frame)
      ensures f.index == index && f.names == names + [name] && f.columns == columns + [column]
      ensures Shaped() && |column| == |index| ==> f.Shaped()
    {
      Frame(index, names + [name], columns + [column])
    }
  }

  /** Some date occurs twice. */
  predicate HasDuplicates(dates: seq<int>)
  {
    exists i, j :: 0 <= i < j < |dates| && dates[i] == dates[j]
  }

  /** Assigning a series with index `dates` to a column of a table with index
      `index`: an identical index is taken as it is; otherwise the series is
      reindexed, each date taking the series' value at that date and NaN when
      the series lacks it, and a series whose dates repeat cannot be
      reindexed (pandas raises ValueError, here `None`). */
  function Align(index: seq<int>, dates: seq<int>, values: seq<Num>): (r: Option<seq<Num>>)
    requires |values| == |dates|
    ensures r.None? <==> index != dates && HasDuplicates(dates)
    ensures index == dates ==> r == Some(values)
    ensures r.Some? ==> |r.value| == |index|
    ensures r.Some? ==> forall j :: 0 <= j < |index| && index[j] in dates ==>
              exists k :: 0 <= k < |dates| && dates[k] == index[j] && r.value[j] == values[k]
    ensures r.Some? ==> forall j :: 0 <= j < |index| && index[j] !in dates ==> r.value[j] == NaN
  {
    if index == dates then Some(values)
    else if HasDuplicates(dates) then None
    else
      var aligned := seq(|index|, j requires 0 <= j < |index| =>
        var k := FirstIndex(dates, index[j]);
        if k < |dates| then values[k] else NaN);
      Some(aligned)
  }

  /** Reindexing is a lookup: when the dates do not repeat, each date of the
      index takes the value of the one row of the series with that date. */
  lemma AlignIsLookup(index: seq<int>, dates: seq<int>, values: seq<Num>, j: nat, k: nat)
    requires |values| == |dates| && !HasDuplicates(dates)
    requires j < |index| && k < |dates| && dates[k] == index[j]
    ensures Align(index, dates, values).Some?
    ensures Align(index, dates, values).value[j] == values[k]
  {
    var r := Align(index, dates, values).value;
    var k' :| 0 <= k' < |dates| && dates[k'] == index[j] && r[j] == values[k'];
  }

  /** Each entry scaled by `c`, NaN staying NaN. */
  function Scaled(column: seq<Num>, c: real): (r: seq<Num>)
    ensures |r| == |column|
  {
    seq(|column|, i requires 0 <= i < |column| => column[i].Times(c))
  }

  /** Skipping a NaN of a scaled column counts it as a scaled 0. */
  lemma ScaledOrZero(column: seq<Num>, c: real, i: nat)
    requires i < |column|
    ensures Scaled(column, c)[i].OrZero() == column[i].OrZero() * c
  {
  }

  /** `df.loc[:, mask].sum(axis=1)` for the columns at `cols`: each row's
      total over those columns, NaN counted as nothing. */
  function RowTotals(f: Frame, cols: seq<nat>): (totals: seq<real>)
    requires f.Shaped() && forall k :: 0 <= k < |cols| ==> cols[k] < |f.columns|
    ensures |totals| == |f.index|
  {
    seq(|f.index|, r requires 0 <= r < |f.index| =>
      Sum(seq(|cols|, k requires 0 <= k < |cols| => f.columns[cols[k]][r].OrZero())))
  }

  /** One row of `RowTotals`. */
  lemma RowTotalsAt(f: Frame, cols: seq<nat>, r: nat)
    requires f.Shaped() && forall k :: 0 <= k < |cols| ==> cols[k] < |f.columns|
    requires r < |f.index|
    ensures RowTotals(f, cols)[r] == Sum(seq(|cols|, k requires 0 <= k < |cols| => f.columns[cols[k]][r].OrZero()))
  {
  }

  /** The reals of a column as numbers. */
  function Values(x: seq<real>): (r: seq<Num>)
    ensures |r| == |x|
  {
    seq(|x|, i requires 0 <= i < |x| => Val(x[i]))
  }

  /** The positions of the columns of `f` whose names pass the test
      `Contains(name, pattern) == present`. */
  function Matching(f: Frame, pattern: string, present: bool): (cols: seq<nat>)
    requires f.Shaped()
    ensures forall k :: 0 <= k < |cols| ==> cols[k] < |f.columns| && Contains(f.names[cols[k]], pattern) == present
  {
    SelectSound(f.names, pattern, present);
    Select(f.names, pattern, present)
  }

  /** `df['portfolio'] = df.loc[:, df.columns.str.contains('_port_weighted')].sum(axis=1)`. */
  function WithPortfolio(f: Frame): (g: Frame)
    requires f.Shaped()
    ensures g.Shaped() && g.index == f.index
    ensures g.names == f.names + ["portfolio"]
    ensures g.columns[..|f.columns|] == f.columns
    ensures g.columns[|f.columns|] == Values(RowTotals(f, Matching(f, "_port_weighted", true)))
  {
    var total := RowTotals(f, Matching(f, "_port_weighted", true));
    f.Add("portfolio", Values(total))
  }
  // ---------------------------------------------------------------------
  // Pairwise covariance

  /** The rows where both columns hold a number, as pairs, in order. */
  function Pairs(x: seq<Num>, y: seq<Num>): (p: seq<(real, real)>)
    requires |x| == |y|
    ensures |p| <= |x|
  {
    if |x| == 0 then []
    else
      var n := |x| - 1;
      Pairs(x[..n], y[..n]) + if x[n].Val? && y[n].Val? then [(x[n].v, y[n].v)] else []
  }

  /** The numbers of a column, NaN dropped. */
  function Present(x: seq<Num>): (p: seq<real>)
    ensures |p| <= |x|
  {
    if |x| == 0 then []
    else
      var n := |x| - 1;
      Present(x[..n]) + if x[n].Val? then [x[n].v] else []
  }

  function Firsts(p: seq<(real, real)>): (a: seq<real>)
    ensures |a| == |p|
  {
    seq(|p|, i requires 0 <= i < |p| => p[i].0)
  }

  function Seconds(p: seq<(real, real)>): (b: seq<real>)
    ensures |b| == |p|
  {
    seq(|p|, i requires 0 <= i < |p| => p[i].1)
  }

  /** Each term less the mean. */
  function Deviations(a: seq<real>): (d: seq<real>)
    requires |a| > 0
    ensures |d| == |a|
  {
    seq(|a|, i requires 0 <= i < |a| => a[i] - Mean(a))
  }

  /** `DataFrame.cov()` for one pair of columns: over the rows where both
      are numbers, the sum of products of deviations from the means over
      those rows, divided by one less than their count; NaN with fewer than
      two such rows. */
  function Covariance(x: seq<Num>, y: seq<Num>): Num
    requires |x| == |y|
  {
    var p := Pairs(x, y);
    if |p| < 2 then NaN
    else Val(Sum(Products(Deviations(Firsts(p)), Deviations(Seconds(p)))) / ((|p| - 1) as real))
  }

  lemma PairsAppend(p: seq<(real, real)>, q: seq<(real, real)>)
    ensures Firsts(p + q) == Firsts(p) + Firsts(q)
    ensures Seconds(p + q) == Seconds(p) + Seconds(q)
  {
  }

  /** Swapping the columns swaps the members of each pair. */
  lemma {:induction false} PairsSwap(x: seq<Num>, y: seq<Num>)
    requires |x| == |y|
    ensures |Pairs(y, x)| == |Pairs(x, y)|
    ensures Firsts(Pairs(y, x)) == Seconds(Pairs(x, y))
    ensures Seconds(Pairs(y, x)) == Firsts(Pairs(x, y))
  {
    if |x| > 0 {
      var n := |x| - 1;
      PairsSwap(x[..n], y[..n]);
      var last := if x[n].Val? && y[n].Val? then [(x[n].v, y[n].v)] else [];
      var swapped := if y[n].Val? && x[n].Val? then [(y[n].v, x[n].v)] else [];
      PairsAppend(Pairs(x[..n], y[..n]), last);
      PairsAppend(Pairs(y[..n], x[..n]), swapped);
    }
  }

  /** A column paired with itself pairs each of its numbers with itself. */
  lemma {:induction false} PairsWithItself(x: seq<Num>)
    ensures Firsts(Pairs(x, x)) == Present(x)
    ensures Seconds(Pairs(x, x)) == Present(x)
  {
    if |x| > 0 {
      var n := |x| - 1;
      PairsWithItself(x[..n]);
      var last := if x[n].Val? then [(x[n].v, x[n].v)] else [];
      var own := if x[n].Val? then [x[n].v] else [];
      assert Pairs(x, x) == Pairs(x[..n], x[..n]) + last;
      assert Present(x) == Present(x[..n]) + own;
      assert Firsts(last) == own && Seconds(last) == own;
      PairsAppend(Pairs(x[..n], x[..n]), last);
    }
  }

  /** Covariance does not depend on the order of the two columns. */
  lemma CovarianceSymmetric(x: seq<Num>, y: seq<Num>)
    requires |x| == |y|
    ensures Covariance(x, y) == Covariance(y, x)
  {
    PairsSwap(x, y);
    var p, q := Pairs(x, y), Pairs(y, x);
    if |p| >= 2 {
      var a, b := Deviations(Firsts(p)), Deviations(Seconds(p));
      assert Deviations(Firsts(q)) == b && Deviations(Seconds(q)) == a;
      assert Products(a, b) == Products(b, a) by {
        forall i | 0 <= i < |a| ensures Products(a, b)[i] == Products(b, a)[i] {
          ProductCommutes(a[i], b[i]);
        }
      }
    }
  }

  lemma ProductCommutes(a: real, b: real)
    ensures a * b == b * a
  {
  }

  /** The covariance of a column with itself is the sample variance of its
      numbers (NaN with fewer than two), which is never negative. */
  lemma CovarianceWithItself(x: seq<Num>)
    ensures |Present(x)| < 2 ==> Covariance(x, x) == NaN
    ensures |Present(x)| >= 2 ==> Covariance(x, x) == Val(SampleVariance(Present(x)))
    ensures Covariance(x, x).Val? ==> Covariance(x, x).v >= 0.0
  {
    PairsWithItself(x);
    var p := Pairs(x, x);
    var a := Present(x);
    assert |p| == |a|;
    if |a| >= 2 {
      DeviationProducts(a);
      SampleVarianceZeroIffConstant(a);
    }
  }

  lemma DeviationProducts(a: seq<real>)
    requires |a| > 0
    ensures Products(Deviations(a), Deviations(a)) == SquaredDeviations(a, Mean(a))
  {
    var d := Deviations(a);
    forall i | 0 <= i < |a| ensures Products(d, d)[i] == SquaredDeviations(a, Mean(a))[i] {
      assert d[i] == a[i] - Mean(a);
    }
  }

  /** The covariance matrix of a list of columns of one length. */
  function CovarianceMatrix(cols: seq<seq<Num>>, rows: nat): (c: seq<seq<Num>>)
    requires forall i :: 0 <= i < |cols| ==> |cols[i]| == rows
    ensures |c| == |cols| && forall i :: 0 <= i < |c| ==> |c[i]| == |cols|
  {
    seq(|cols|, i requires 0 <= i < |cols| =>
      seq(|cols|, j requires 0 <= j < |cols| => Covariance(cols[i], cols[j])))
  }

  /** The covariance matrix is symmetric and its diagonal holds the
      columns' sample variances. */
  lemma CovarianceMatrixFacts(cols: seq<seq<Num>>, rows: nat, i: nat, j: nat)
    requires forall k :: 0 <= k < |cols| ==> |cols[k]| == rows
    requires i < |cols| && j < |cols|
    ensures CovarianceMatrix(cols, rows)[i][j] == CovarianceMatrix(cols, rows)[j][i]
    ensures |Present(cols[i])| >= 2 ==> CovarianceMatrix(cols, rows)[i][i] == Val(SampleVariance(Present(cols[i])))
  {
    CovarianceSymmetric(cols[i], cols[j]);
    CovarianceWithItself(cols[i]);
  }

  // ---------------------------------------------------------------------
  // The quadratic form

  /** A square matrix of numbers of side `n`. */
  predicate Square(c: seq<seq<Num>>, n: nat)
  {
    |c| == n && forall i :: 0 <= i < n ==> |c[i]| == n
  }

  /** No entry of the matrix is NaN. */
  predicate AllValues(c: seq<seq<Num>>)
  {
    forall i, j :: 0 <= i < |c| && 0 <= j < |c[i]| ==> c[i][j].Val?
  }

  /** `(w^T C)_j`: the weighted sum of column `j`. */
  function WeightedColumn(w: seq<real>, c: seq<seq<Num>>, j: nat): real
    requires Square(c, |w|) && AllValues(c) && j < |w|
  {
    Sum(seq(|w|, i requires 0 <= i < |w| => w[i] * c[i][j].v))
  }

  /** `np.matmul(np.matmul(w.T, C), w)`: the weighted column sums weighted
      again; a NaN anywhere in `C` makes the result NaN. */
  function QuadForm(w: seq<real>, c: seq<seq<Num>>): Num
    requires Square(c, |w|)
  {
    if !AllValues(c) then NaN
    else Val(Sum(seq(|w|, j requires 0 <= j < |w| => WeightedColumn(w, c, j) * w[j])))
  }

  /** With one asset of weight 1 the form is that asset's own entry. */
  lemma QuadFormOfOne(c: seq<seq<Num>>)
    requires Square(c, 1)
    ensures QuadForm([1.0], c) == c[0][0]
  {
    if AllValues(c) {
      var x := c[0][0].v;
      assert seq(1, i requires 0 <= i < 1 => [1.0][i] * c[i][0].v) == [x];
      assert Sum([x]) == x;
      assert seq(1, j requires 0 <= j < 1 => WeightedColumn([1.0], c, j) * [1.0][j]) == [x];
    }
  }
}
