/** Per-instrument price history and the statistics derived from it: the
    `QuandlStockData` object of the risk engine, without the download. The
    downloaded table is a constructor argument; the natural logarithm and the
    square root, which Dafny's reals lack, are supplied with it. */
module MarketData {
  import opened Numeric

  /** One dated record of a downloaded price table. Only the date and the
      adjusted close feed the statistics. */
  datatype Row = Row(date: int, adjClose: real)

  /** The columns a statistics object offers to a portfolio. */
  datatype ColumnName =
    | AdjClose
    | PriceChange
    | PercentChange
    | ExpVolatility
    | SwVolatility
    | ExpAverage
    | SwAverage

  function Dates(rows: seq<Row>): (d: seq<int>)
    ensures |d| == |rows|
  {
    seq(|rows|, i requires 0 <= i < |rows| => rows[i].date)
  }

  function Prices(rows: seq<Row>): (p: seq<real>)
    ensures |p| == |rows|
  {
    seq(|rows|, i requires 0 <= i < |rows| => rows[i].adjClose)
  }

  predicate SortedByDate(rows: seq<Row>)
  {
    forall i, j :: 0 <= i < j < |rows| ==> rows[i].date <= rows[j].date
  }

  /** No two rows share a date (given sortedness, dates strictly increase). */
  predicate StrictlyIncreasing(rows: seq<Row>)
  {
    forall i, j :: 0 <= i < j < |rows| ==> rows[i].date < rows[j].date
  }

  /** Inserts `r` into a date-sorted table, ahead of the rows of equal date. */
  function InsertByDate(r: Row, s: seq<Row>): (t: seq<Row>)
    requires SortedByDate(s)
    ensures |t| == |s| + 1
    ensures forall i :: 0 <= i < |t| ==> t[i] == r || t[i] in s
    ensures SortedByDate(t)
    ensures multiset(t) == multiset(s) + multiset{r}
  {
    if s == [] then [r]
    else if r.date <= s[0].date then [r] + s
    else
      var rest := InsertByDate(r, s[1..]);
      InsertBehindHead(r, s, rest);
      [s[0]] + rest
  }

  /** The recursive step of `InsertByDate`: a row dated after the head goes
      into the tail, and the head stays in front. */
  lemma InsertBehindHead(r: Row, s: seq<Row>, rest: seq<Row>)
    requires SortedByDate(s) && s != [] && s[0].date < r.date
    requires forall i :: 0 <= i < |rest| ==> rest[i] == r || rest[i] in s[1..]
    requires SortedByDate(rest) && multiset(rest) == multiset(s[1..]) + multiset{r}
    ensures forall i :: 0 <= i < |rest| + 1 ==> ([s[0]] + rest)[i] == r || ([s[0]] + rest)[i] in s
    ensures SortedByDate([s[0]] + rest)
    ensures multiset([s[0]] + rest) == multiset(s) + multiset{r}
  {
    assert forall i :: 0 <= i < |rest| ==> s[0].date <= rest[i].date;
    assert s == [s[0]] + s[1..];
  }

  /** `sort_index()` on a table indexed by date: the rows reordered so that
      dates never decrease. */
  function SortByDate(s: seq<Row>): (t: seq<Row>)
    ensures |t| == |s|
    ensures SortedByDate(t)
    ensures multiset(t) == multiset(s)
  {
    if s == [] then []
    else
      assert s == [s[0]] + s[1..];
      InsertByDate(s[0], SortByDate(s[1..]))
  }

  /** In a date-sorted table the largest date is the last row's. */
  lemma SortedMaxIsLast(rows: seq<Row>)
    requires |rows| > 0 && SortedByDate(rows)
    ensures MaxOf(Dates(rows)) == rows[|rows| - 1].date
  {
    var m := MaxOf(Dates(rows));
    var i :| 0 <= i < |rows| && Dates(rows)[i] == m;
    assert rows[i].date <= rows[|rows| - 1].date;
    assert Dates(rows)[|rows| - 1] <= m;
  }

  // ---------------------------------------------------------------------
  // Column formulas

  /** `adj_close.diff(1)`: NaN in the first row, the change from the
      previous row after it. */
  function PriceChanges(p: seq<real>): (c: seq<Num>)
    ensures |c| == |p|
  {
    seq(|p|, t requires 0 <= t < |p| => if t == 0 then NaN else Val(p[t] - p[t - 1]))
  }

  /** `(log(adj_close) - log(adj_close.shift(1))).fillna(0)`: the log return
      of each row, with the undefined first row filled with 0. */
  function LogReturns(ln: real -> real, p: seq<real>): (r: seq<real>)
    ensures |r| == |p|
  {
    seq(|p|, t requires 0 <= t < |p| => if t == 0 then 0.0 else ln(p[t]) - ln(p[t - 1]))
  }

  /** The values of a column with NaN counted as 0, as pandas' `sum` skips
      missing values. */
  function SkipNaN(c: seq<Num>): (r: seq<real>)
    ensures |r| == |c|
  {
    seq(|c|, i requires 0 <= i < |c| => if c[i].Val? then c[i].v else 0.0)
  }

  /** The price changes up to row `t` add up to the move since the first
      row. */
  lemma {:induction false} PriceChangesTelescope(p: seq<real>, t: nat)
    requires t < |p|
    ensures Sum(SkipNaN(PriceChanges(p))[..t + 1]) == p[t] - p[0]
  {
    var c := SkipNaN(PriceChanges(p));
    if t > 0 {
      PriceChangesTelescope(p, t - 1);
      assert c[..t + 1][..t] == c[..t];
    }
  }

  /** The log returns up to row `t` add up to the log growth since the first
      row: `sum(percentchange[0..t]) == log p[t] - log p[0]`. */
  lemma {:induction false} LogReturnsTelescope(ln: real -> real, p: seq<real>, t: nat)
    requires t < |p|
    ensures Sum(LogReturns(ln, p)[..t + 1]) == ln(p[t]) - ln(p[0])
  {
    var r := LogReturns(ln, p);
    if t > 0 {
      LogReturnsTelescope(ln, p, t - 1);
      assert r[..t + 1][..t] == r[..t];
    }
  }

  /** The log returns of rows `a + 1 .. b` add up to the log growth from row
      `a` to row `b`. */
  lemma LogReturnsBetween(ln: real -> real, p: seq<real>, a: nat, b: nat)
    requires a <= b < |p|
    ensures Sum(LogReturns(ln, p)[a + 1..b + 1]) == ln(p[b]) - ln(p[a])
  {
    var r := LogReturns(ln, p);
    assert r[..b + 1] == r[..a + 1] + r[a + 1..b + 1];
    SumAppend(r[..a + 1], r[a + 1..b + 1]);
    LogReturnsTelescope(ln, p, a);
    LogReturnsTelescope(ln, p, b);
  }

  /** The trailing window of `days` rows ending at row `t`. */
  function Window(x: seq<real>, days: nat, t: nat): (w: seq<real>)
    requires 1 <= days <= t + 1 <= |x|
    ensures |w| == days
  {
    x[t + 1 - days..t + 1]
  }

  /** `rolling(days).mean()`: NaN until `days` rows exist, then the mean of
      the trailing window. */
  function RollingMeans(x: seq<real>, days: nat): (c: seq<Num>)
    requires days >= 1
    ensures |c| == |x|
  {
    seq(|x|, t requires 0 <= t < |x| =>
      if t + 1 < days then NaN else Val(Mean(Window(x, days, t))))
  }

  /** `rolling(days).var()` (sample variance): NaN until `days` rows exist,
      and NaN throughout for a one-row window, which has no degree of
      freedom left. */
  function RollingVariances(x: seq<real>, days: nat): (c: seq<Num>)
    requires days >= 1
    ensures |c| == |x|
  {
    seq(|x|, t requires 0 <= t < |x| =>
      if t + 1 < days || days < 2 then NaN else Val(SampleVariance(Window(x, days, t))))
  }

  /** The square root of each defined entry; NaN stays NaN. */
  function SqrtColumn(sqrt: real -> real, c: seq<Num>): (r: seq<Num>)
    ensures |r| == |c|
  {
    seq(|c|, i requires 0 <= i < |c| => if c[i].Val? then Val(sqrt(c[i].v)) else NaN)
  }

  /** `rolling(days).std()`: the square root of the rolling variance. */
  function RollingStds(x: seq<real>, days: nat, sqrt: real -> real): (c: seq<Num>)
    requires days >= 1
    ensures |c| == |x|
  {
    SqrtColumn(sqrt, RollingVariances(x, days))
  }

  /** The simply weighted mean is undefined for rows `0 .. days - 2` and
      defined from row `days - 1`; the simply weighted variance (and so the
      standard deviation) follows the same rule when the window has at least
      two rows, and is never defined for a one-row window. */
  lemma RollingDefinedFrom(x: seq<real>, days: nat, sqrt: real -> real, t: nat)
    requires days >= 1 && t < |x|
    ensures RollingMeans(x, days)[t].Val? <==> t >= days - 1
    ensures RollingStds(x, days, sqrt)[t].Val? <==> t >= days - 1 && days >= 2
  {
  }

  /** The simply weighted average of the log returns at row `t` is the log
      growth over the window divided by its length; the window reaching back
      to row 0 starts from the first price because that row's return is 0. */
  lemma RollingMeanOfLogReturns(ln: real -> real, p: seq<real>, days: nat, t: nat)
    requires 1 <= days && days - 1 <= t < |p|
    ensures RollingMeans(LogReturns(ln, p), days)[t]
         == Val((ln(p[t]) - ln(p[if t >= days then t - days else 0])) / (days as real))
  {
    var r := LogReturns(ln, p);
    if t >= days {
      LogReturnsBetween(ln, p, t - days, t);
    } else {
      assert Window(r, days, t) == r[..t + 1];
      LogReturnsTelescope(ln, p, t);
    }
  }

  /** Each defined rolling variance is non-negative, and zero exactly when the
      window holds one repeated value. */
  lemma RollingVarianceZeroIffFlat(x: seq<real>, days: nat, t: nat)
    requires 2 <= days && days - 1 <= t < |x|
    ensures RollingVariances(x, days)[t].Val?
    ensures RollingVariances(x, days)[t].v >= 0.0
    ensures RollingVariances(x, days)[t].v == 0.0 <==> Constant(Window(x, days, t))
  {
    SampleVarianceZeroIffConstant(Window(x, days, t));
  }

  // ---------------------------------------------------------------------
  // Exponentially weighted statistics (pandas `ewm(span=days, min_periods=days)`,
  // with its defaults `adjust=True` and, for the variance, `bias=False`)

  /** The smoothing factor pandas derives from a span. */
  function Alpha(days: nat): real
    requires days >= 1
  {
    2.0 / (days as real + 1.0)
  }

  /** The weight of each of the rows `0 .. t` at row `t`: the row `k` rows
      back weighs `(1 - alpha)^k`. */
  function EwWeights(days: nat, t: nat): (w: seq<real>)
    requires days >= 1
    ensures |w| == t + 1
  {
    seq(t + 1, i requires 0 <= i <= t => Pow(1.0 - Alpha(days), t - i))
  }

  /** The exponentially weighted mean at row `t`. */
  function EwMean(x: seq<real>, days: nat, t: nat): real
    requires days >= 1 && t < |x|
  {
    var w := EwWeights(days, t);
    EwWeightsPositive(days, t);
    Sum(Products(w, x[..t + 1])) / Sum(w)
  }

  /** The bias-corrected exponentially weighted variance at row `t`: the
      weighted mean squared deviation scaled by `(sum w)^2 / ((sum w)^2 -
      sum w^2)`, NaN when that denominator is not positive. */
  function EwVariance(x: seq<real>, days: nat, t: nat): Num
    requires days >= 1 && t < |x|
  {
    var w := EwWeights(days, t);
    EwWeightsPositive(days, t);
    var total := Sum(w);
    var denominator := Sq(total) - Sum(Products(w, w));
    var biased := Sum(Products(w, SquaredDeviations(x[..t + 1], EwMean(x, days, t)))) / total;
    if denominator > 0.0 then Val(Sq(total) / denominator * biased) else NaN
  }

  /** `ewm(span=days, min_periods=days).mean()`. */
  function EwMeans(x: seq<real>, days: nat): (c: seq<Num>)
    requires days >= 1
    ensures |c| == |x|
  {
    seq(|x|, t requires 0 <= t < |x| => if t + 1 < days then NaN else Val(EwMean(x, days, t)))
  }

  /** `ewm(span=days, min_periods=days).var()`. */
  function EwVariances(x: seq<real>, days: nat): (c: seq<Num>)
    requires days >= 1
    ensures |c| == |x|
  {
    seq(|x|, t requires 0 <= t < |x| => if t + 1 < days then NaN else EwVariance(x, days, t))
  }

  /** `ewm(span=days, min_periods=days).std()`. */
  function EwStds(x: seq<real>, days: nat, sqrt: real -> real): (c: seq<Num>)
    requires days >= 1
    ensures |c| == |x|
  {
    SqrtColumn(sqrt, EwVariances(x, days))
  }

  /** The weights are non-negative, the newest row weighs 1, and so their
      total is at least 1. */
  lemma EwWeightsPositive(days: nat, t: nat)
    requires days >= 1
    ensures forall i :: 0 <= i <= t ==> EwWeights(days, t)[i] >= 0.0
    ensures EwWeights(days, t)[t] == 1.0
    ensures Sum(EwWeights(days, t)) >= 1.0
  {
    var w := EwWeights(days, t);
    var decay := 1.0 - Alpha(days);
    assert decay >= 0.0;
    assert w[t] == Pow(decay, 0);
    forall i | 0 <= i <= t ensures w[i] >= 0.0 {
      PowNonNegative(decay, t - i);
    }
    var init := w[..t];
    assert forall i :: 0 <= i < |init| ==> init[i] == w[i];
    SumNonNegative(init);
  }

  /** Weighting a constant by `w` gives the constant times the total weight. */
  lemma {:induction false} ProductsWithConstant(w: seq<real>, x: seq<real>, c: real)
    requires |w| == |x|
    requires forall i :: 0 <= i < |x| ==> x[i] == c
    ensures Sum(Products(w, x)) == c * Sum(w)
  {
    if |w| > 0 {
      var n := |w| - 1;
      assert forall i :: 0 <= i < n ==> Products(w, x)[..n][i] == Products(w[..n], x[..n])[i];
      assert Products(w, x)[..n] == Products(w[..n], x[..n]);
      ProductsWithConstant(w[..n], x[..n], c);
    }
  }

  /** On a window that holds one repeated value `c`, the exponentially
      weighted mean is `c`. */
  lemma EwMeanOfConstant(x: seq<real>, days: nat, t: nat, c: real)
    requires days >= 1 && t < |x|
    requires forall i :: 0 <= i <= t ==> x[i] == c
    ensures EwMean(x, days, t) == c
  {
    var w := EwWeights(days, t);
    EwWeightsPositive(days, t);
    ProductsWithConstant(w, x[..t + 1], c);
    var total := Sum(w);
    calc {
      EwMean(x, days, t);
      == (c * total) / total;
      == c;
    }
  }

  /** Products of non-negative (positive) factors are non-negative (positive). */
  lemma ProductSign(a: real, b: real)
    requires a >= 0.0 && b >= 0.0
    ensures a * b >= 0.0
    ensures a > 0.0 && b > 0.0 ==> a * b > 0.0
  {
  }

  /** For non-negative weights, `(sum w)^2 - sum w^2` is non-negative, and it
      is positive once the last two weights are positive. */
  lemma {:induction false} SpreadOfWeights(w: seq<real>)
    requires forall i :: 0 <= i < |w| ==> w[i] >= 0.0
    ensures Sq(Sum(w)) - Sum(Products(w, w)) >= 0.0
    ensures |w| >= 2 && w[|w| - 1] > 0.0 && w[|w| - 2] > 0.0 ==>
              Sq(Sum(w)) - Sum(Products(w, w)) > 0.0
  {
    if |w| > 0 {
      var n := |w| - 1;
      var init, x := w[..n], w[n];
      assert forall i :: 0 <= i < n ==> init[i] == w[i];
      assert forall i :: 0 <= i < n ==> Products(w, w)[..n][i] == Products(init, init)[i];
      assert Products(w, w)[..n] == Products(init, init);
      SpreadOfWeights(init);
      SumNonNegative(init);
      var total, squares := Sum(init), Sum(Products(init, init));
      calc {
        Sq(Sum(w)) - Sum(Products(w, w));
        == Sq(total + x) - (squares + x * x);
        == (total + x) * (total + x) - (squares + x * x);
        == Sq(total) - squares + 2.0 * (total * x);
      }
      ProductSign(total, x);
      if n >= 1 && x > 0.0 && w[n - 1] > 0.0 {
        var before := init[..n - 1];
        assert forall i :: 0 <= i < n - 1 ==> before[i] == init[i];
        SumNonNegative(before);
        assert total == Sum(before) + w[n - 1];
      }
    }
  }

  /** Once `days` rows exist, the exponentially weighted variance is defined
      exactly when the span is at least 2: with a span of 1 only the newest
      row carries weight and the bias correction divides by zero. */
  lemma EwVarianceDefinedIff(x: seq<real>, days: nat, t: nat)
    requires days >= 1 && days - 1 <= t < |x|
    ensures EwVariance(x, days, t).Val? <==> days >= 2
  {
    var w := EwWeights(days, t);
    EwWeightsPositive(days, t);
    var decay := 1.0 - Alpha(days);
    if days >= 2 {
      assert decay > 0.0;
      assert w[t - 1] == Pow(decay, 1) == decay * Pow(decay, 0);
      SpreadOfWeights(w);
    } else {
      assert decay == 0.0;
      var init := w[..t];
      forall i | 0 <= i < t ensures init[i] == 0.0 {
        assert init[i] == Pow(0.0, t - i) == 0.0 * Pow(0.0, t - i - 1);
      }
      SumConstant(init, 0.0);
      assert Sum(w) == 1.0;
      var squares := Products(w, w);
      assert forall i :: 0 <= i < t ==> squares[..t][i] == 0.0;
      SumConstant(squares[..t], 0.0);
      assert Sum(squares) == 1.0;
      assert Sq(Sum(w)) == 1.0;
    }
  }

  /** The exponentially weighted mean is undefined for rows `0 .. days - 2`
      and defined from row `days - 1` (`min_periods = days`); the standard
      deviation follows the same rule for spans of at least 2 and is never
      defined for a span of 1. */
  lemma EwDefinedFrom(x: seq<real>, days: nat, sqrt: real -> real, t: nat)
    requires days >= 1 && t < |x|
    ensures EwMeans(x, days)[t].Val? <==> t >= days - 1
    ensures EwStds(x, days, sqrt)[t].Val? <==> t >= days - 1 && days >= 2
  {
    if t >= days - 1 {
      EwVarianceDefinedIff(x, days, t);
    }
  }
  // ---------------------------------------------------------------------
  // The statistics object

  /** `QuandlStockData`: one ticker's downloaded price table, sorted by
      date, with its latest date, the derived columns it adds to the table
      and the statistics it reads at the latest row. `ln` and `sqrt` stand
      for numpy's `log` and `sqrt`. */
  class StockData {
    const ticker: string
    const ln: real -> real
    const sqrt: real -> real
    /** The table after `sort_index()`; the source never edits these rows. */
    const rows: seq<Row>
    const maxDate: int
    /** The derived columns, one entry per row. */
    var priceChange: seq<Num>
    var percentChange: seq<real>
    var expVolatility: seq<Num>
    var swVolatility: seq<Num>
    var expAverage: seq<Num>
    var swAverage: seq<Num>
    /** The statistics at the latest row. */
    var currentExVol: Num
    var currentSwVol: Num
    var currentExMean: Num
    var currentSwMean: Num

    /** The table is non-empty and sorted, so that its largest date
        `maxDate` is the last row's. */
    predicate Valid()
    {
      |rows| > 0 && SortedByDate(rows) && maxDate == rows[|rows| - 1].date
    }

    /** `QuandlStockData(apikey, ticker, days)`: index the gathered table by
        date, sort it, record the largest date, then add the volatility and
        average columns. The download itself is the `gathered` argument. */
    constructor (ticker: string, gathered: seq<Row>, days: nat, ln: real -> real, sqrt: real -> real)
      requires |gathered| > 0 && days >= 1
      ensures Valid()
      ensures this.ticker == ticker && this.ln == ln && this.sqrt == sqrt
      ensures multiset(rows) == multiset(gathered)
      ensures maxDate == MaxOf(Dates(rows))
      ensures priceChange == PriceChanges(Prices(rows))
      ensures percentChange == LogReturns(ln, Prices(rows))
      ensures expVolatility == EwStds(percentChange, days, sqrt)
      ensures swVolatility == RollingStds(percentChange, days, sqrt)
      ensures expAverage == EwMeans(percentChange, days)
      ensures swAverage == RollingMeans(percentChange, days)
      ensures currentExVol == expVolatility[LatestRow()]
      ensures currentSwVol == swVolatility[LatestRow()]
      ensures currentExMean == expAverage[LatestRow()]
      ensures currentSwMean == swAverage[LatestRow()]
      ensures Ready()
    {
      this.ticker := ticker;
      this.ln := ln;
      this.sqrt := sqrt;
      var sorted := SortByDate(gathered);
      rows := sorted;
      maxDate := MaxOf(Dates(sorted));
      SortedMaxIsLast(sorted);
      new;
      SetVolatility(days);
      SetExpected(days);
    }

    /** Every derived column has one entry per row. */
    predicate Ready()
      reads this
    {
      && |priceChange| == |rows| && |percentChange| == |rows|
      && |expVolatility| == |rows| && |swVolatility| == |rows|
      && |expAverage| == |rows| && |swAverage| == |rows|
    }

    /** `market_data[key]`: the named column of the table. */
    function ColumnValues(key: ColumnName): (values: seq<Num>)
      requires Ready()
      reads this
      ensures |values| == |rows|
      ensures key == AdjClose ==> forall i :: 0 <= i < |rows| ==> values[i] == Val(rows[i].adjClose)
    {
      match key
      case AdjClose => seq(|rows|, i requires 0 <= i < |rows| => Val(rows[i].adjClose))
      case PriceChange => priceChange
      case PercentChange =>
        var logReturns := percentChange;
        seq(|rows|, i requires 0 <= i < |rows| => Val(logReturns[i]))
      case ExpVolatility => expVolatility
      case SwVolatility => swVolatility
      case ExpAverage => expAverage
      case SwAverage => swAverage
    }

    /** The row that `loc[date == maxdate].values[0]` reads: the first row
        holding the largest date. Every row from it to the end holds that
        date, and every row before it an earlier one. */
    function LatestRow(): (i: nat)
      requires Valid()
      ensures i < |rows| && rows[i].date == maxDate
      ensures forall j :: 0 <= j < i ==> rows[j].date < maxDate
      ensures forall j :: i <= j < |rows| ==> rows[j].date == maxDate
    {
      var dates := Dates(rows);
      var i := FirstIndex(dates, maxDate);
      assert dates[|rows| - 1] == maxDate;
      forall j | 0 <= j < i ensures rows[j].date < maxDate {
        assert dates[j] == rows[j].date != maxDate;
      }
      i
    }

    /** When no date repeats, the latest row is the last row. */
    lemma LatestRowIsLast()
      requires Valid()
      ensures StrictlyIncreasing(rows) ==> LatestRow() == |rows| - 1
    {
      var i := LatestRow();
      assert rows[|rows| - 1].date == maxDate;
    }

    /** `current_price()`: the adjusted close of the latest row, which is the
        last row of the sorted table when no date repeats. */
    function CurrentPrice(): (p: real)
      requires Valid()
      ensures exists i :: 0 <= i < |rows| && rows[i].date == maxDate && rows[i].adjClose == p
      ensures StrictlyIncreasing(rows) ==> p == rows[|rows| - 1].adjClose
    {
      LatestRowIsLast();
      rows[LatestRow()].adjClose
    }

    /** `set_price_changes()`: add the price-change and log-return columns. */
    method SetPriceChanges()
      modifies this`priceChange, this`percentChange
      ensures priceChange == PriceChanges(Prices(rows))
      ensures percentChange == LogReturns(ln, Prices(rows))
    {
      priceChange := PriceChanges(Prices(rows));
      percentChange := LogReturns(ln, Prices(rows));
    }

    /** `set_volatility(days)`: recompute the return columns, add the
        exponentially and simply weighted standard deviations of the log
        returns, and read both at the latest row. */
    method SetVolatility(days: nat)
      requires Valid() && days >= 1
      modifies this`priceChange, this`percentChange, this`expVolatility, this`swVolatility
      modifies this`currentExVol, this`currentSwVol
      ensures priceChange == PriceChanges(Prices(rows))
      ensures percentChange == LogReturns(ln, Prices(rows))
      ensures expVolatility == EwStds(percentChange, days, sqrt)
      ensures swVolatility == RollingStds(percentChange, days, sqrt)
      ensures currentExVol == expVolatility[LatestRow()]
      ensures currentSwVol == swVolatility[LatestRow()]
    {
      SetPriceChanges();
      expVolatility := EwStds(percentChange, days, sqrt);
      swVolatility := RollingStds(percentChange, days, sqrt);
      var latest := LatestRow();
      currentExVol := expVolatility[latest];
      currentSwVol := swVolatility[latest];
    }

    /** `set_expected(days)`: add the exponentially and simply weighted
        averages of the log-return column already present, and read both at
        the latest row. */
    method SetExpected(days: nat)
      requires Valid() && days >= 1 && |percentChange| == |rows|
      modifies this`expAverage, this`swAverage, this`currentExMean, this`currentSwMean
      ensures expAverage == EwMeans(percentChange, days)
      ensures swAverage == RollingMeans(percentChange, days)
      ensures currentExMean == expAverage[LatestRow()]
      ensures currentSwMean == swAverage[LatestRow()]
    {
      expAverage := EwMeans(percentChange, days);
      swAverage := RollingMeans(percentChange, days);
      var latest := LatestRow();
      currentExMean := expAverage[latest];
      currentSwMean := swAverage[latest];
    }
  }
}
