# risk_dash core, modelled in Dafny

This project models the risk engine of `risk_dash`:

- **`QuandlStockData`** holds a per-ticker price table. The model covers sorting, the latest date, the price-change and log-return columns, the simply and exponentially weighted rolling means and standard deviations, and the current price.
- **`Equity`** is a position. The model covers its valuation and mark-to-market.
- **`Portfolio`** is a dictionary of positions. The model covers keying, valuation, marking, the date index, value weights, the combined market-data table with its `portfolio` column, and the parametric variance and value at risk.
- **`NormalDistribution` and `NaiveMonteCarlo`** are the Monte Carlo helpers. The model covers the cumulative paths and their per-step summaries.

The modules:

| module | file | what it holds |
|---|---|---|
| `Wrappers` | `wrappers.dfy` | `Option`, `Result` |
| `Numeric` | `numeric.dfy` | `Num` (a float that may be NaN), sums, means, variances, shares, matrices as sequences of rows |
| `MarketData` | `market_data.dfy` | dated rows, the column formulas, class `StockData` |
| `Frames` | `frame.dfy` | the pandas/numpy parts the portfolio relies on: the `Frame` table, `str.contains` masks, reindexing a series onto an index, NaN-skipping row sums, pairwise covariance, `w^T C w` |
| `Securities` | `securities.dfy` | class `Equity`, the keyed dictionary, class `Portfolio`, the parametric variance |
| `SimGen` | `simgen.dfy` | class `NormalDistribution`, paths and summaries, class `NaiveMonteCarlo` |

The objects that Python updates in place are classes:

- `StockData`'s derived columns, `Equity.marketValue` and the `Portfolio` and `NaiveMonteCarlo` caches are `var` fields.
- What the source never reassigns is `const`.
- An attribute that Python creates on first assignment is an `Option` that starts as `None`. Reading it while it is `None` is the source's `AttributeError`.

Each method is proved against a specification function, for example:

- `Portfolio.Value` against `Sum(Valuations())`;
- `Portfolio.Mark` against `Snapshot()`;
- `SetPortfolioMarketData` against `PortfolioTable`.

The lemmas beside each function state what the source promises of it:

- the weights add up to 1;
- the `portfolio` column is the weighted sum of the positions' columns;
- covariance is symmetric;
- the parametric variance is `w^T C w` over the positions' own columns, and a one-position portfolio has the variance of its one column;
- the mean path is the running sum of the mean draws.

Floats are Dafny reals, with an explicit `NaN` where pandas produces one. numpy's `log` and `sqrt` have no Dafny counterpart, so they are parameters: a `StockData` and a `NaiveMonteCarlo` carry them as constants.

Two behaviours of the code are worth noting:

- `get_date()` returns the date index of the first position with the longest table, although its docstring (risk_dash/securities.py:105-106) promises the latest shared date;
- the parametric value at risk is `variance * confidence_interval` (risk_dash/securities.py:187).

## Model

| member | source | states |
|---|---|---|
| MarketData.InsertByDate | risk_dash/market_data.py:60 | inserting a row into a date-sorted table gives a sorted table with one more row, holding exactly the old rows and the new one (as a multiset) |
| MarketData.InsertBehindHead | risk_dash/market_data.py:60 | a row dated after the head goes into the tail: the result stays sorted and is the old rows plus the new one |
| MarketData.SortByDate | risk_dash/market_data.py:59-60 | `sort_index()` yields a date-sorted permutation of the gathered rows |
| MarketData.SortedMaxIsLast | risk_dash/market_data.py:61 | in a sorted table `max(date)` is the last row's date |
| MarketData.PriceChangesTelescope | risk_dash/market_data.py:89 | the `diff(1)` price changes up to row t, NaN skipped, add up to `p[t] - p[0]` |
| MarketData.LogReturnsTelescope | risk_dash/market_data.py:90 | the log returns, with the first row filled with 0, add up to `log p[t] - log p[0]` |
| MarketData.LogReturnsBetween | risk_dash/market_data.py:90 | the log returns of rows a+1..b add up to `log p[b] - log p[a]` |
| MarketData.RollingDefinedFrom | risk_dash/market_data.py:101-114 | `rolling(days).mean()` is defined exactly from row days-1; `rolling(days).std()` likewise when days >= 2, never for days = 1 |
| MarketData.RollingMeanOfLogReturns | risk_dash/market_data.py:114 | the simply weighted average daily increase is the log growth over the window divided by `days` |
| MarketData.RollingVarianceZeroIffFlat | risk_dash/market_data.py:102 | a defined rolling variance is non-negative, and zero exactly when the window holds one repeated value |
| MarketData.EwWeightsPositive | risk_dash/market_data.py:101 | the `ewm(span=days)` weights are non-negative, the newest is 1, their total is at least 1 |
| MarketData.EwMeanOfConstant | risk_dash/market_data.py:113 | the exponentially weighted mean of a constant series is that constant |
| MarketData.SpreadOfWeights | risk_dash/market_data.py:101 | the bias-correction denominator `(sum w)^2 - sum w^2` is non-negative, and positive once the last two weights are positive |
| MarketData.EwVarianceDefinedIff | risk_dash/market_data.py:101 | once `days` rows exist, the exponentially weighted variance is defined exactly when the span is at least 2 |
| MarketData.EwDefinedFrom | risk_dash/market_data.py:101-113 | `ewm(span=days, min_periods=days)` mean is defined exactly from row days-1; the std likewise when days >= 2, never for days = 1 |
| MarketData.StockData.constructor | risk_dash/market_data.py:54-63 | the table is a sorted permutation of the gathered rows, `maxdate` is its largest date, and the price, return, volatility and average columns and the four current statistics are those of the formulas |
| MarketData.StockData.ColumnValues | risk_dash/market_data.py:89-114 | `market_data[key]` has one entry per row; the `adj_close` column is the rows' adjusted closes |
| MarketData.StockData.LatestRow | risk_dash/market_data.py:103-104 | `loc[date == maxdate].values[0]` reads the first row with the largest date; rows before it are earlier, rows after it share that date |
| MarketData.StockData.LatestRowIsLast | risk_dash/market_data.py:125 | when no date repeats, the latest row is the last row |
| MarketData.StockData.CurrentPrice | risk_dash/market_data.py:118-125 | the price is the adjusted close of a row dated `maxdate`, and the last row's when dates do not repeat |
| MarketData.StockData.SetPriceChanges | risk_dash/market_data.py:85-90 | sets `pricechange` to the `diff(1)` column and `percentchange` to the zero-filled log returns |
| MarketData.StockData.SetVolatility | risk_dash/market_data.py:93-104 | recomputes the return columns, sets the exponentially and simply weighted std columns, and reads both at the latest row |
| MarketData.StockData.SetExpected | risk_dash/market_data.py:106-116 | sets the exponentially and simply weighted average columns and reads both at the latest row |
| Numeric.MaxOf | risk_dash/market_data.py:61 | `max` returns an element no smaller than any other |
| Numeric.FirstMaxIndex | risk_dash/securities.py:108-113 | the first position holding the maximum: no later element is larger, every earlier one is smaller |
| Numeric.SharesSumToOne | risk_dash/securities.py:155-159 | each value divided by a non-zero total: the quotients add up to 1 |
| Numeric.SampleVarianceZeroIffConstant | risk_dash/market_data.py:102 | the sample variance (ddof 1) is non-negative and zero exactly for a constant sample |
| Numeric.PopVarianceZeroIffConstant | risk_dash/simgen.py:57 | the population variance (ddof 0) is non-negative and zero exactly for a constant sample |
| Frames.ContainsIff | risk_dash/securities.py:128 | `str.contains(pattern)` holds exactly when the pattern occurs at some position of the name |
| Frames.DerivedNamesContainPort | risk_dash/securities.py:126-128 | every `*_port_weighted` name contains `_port_weighted` and `port`; `portfolio` contains `port` |
| Frames.SelectSound | risk_dash/securities.py:128 | a column mask picks only columns whose names pass the test |
| Frames.SelectComplete | risk_dash/securities.py:128 | a column mask picks every column whose name passes the test |
| Frames.SelectIncreasing | risk_dash/securities.py:128 | the picked columns keep the frame's column order |
| Frames.SelectFirstOfPairs | risk_dash/securities.py:181 | when names come in pairs and only the second of each contains the pattern, the negated mask picks exactly the even columns |
| Frames.SelectSecondOfPairs | risk_dash/securities.py:124-128 | when names come in pairs and only the second of each contains the pattern, the mask picks exactly the odd columns |
| Frames.Align | risk_dash/securities.py:125 | assigning a dated series to the table: an identical index takes the values as they stand, position by position; otherwise each date takes the series' value at that date, or NaN when absent; no result exactly when the index differs and the series' dates repeat |
| Frames.AlignIsLookup | risk_dash/securities.py:125 | with no repeated dates, the aligned value at a date is the series' value at that date |
| Frames.WithPortfolio | risk_dash/securities.py:128 | adds the `portfolio` column, keeps every other column, and fills it with the NaN-skipping row sums of the `_port_weighted` columns |
| Frames.OnlyKeyColumnKept | risk_dash/securities.py:181 | in a one-position table, `~contains('port')` keeps only the position's own column |
| Frames.CovarianceSymmetric | risk_dash/securities.py:181 | the pairwise-complete covariance of two columns does not depend on their order |
| Frames.CovarianceWithItself | risk_dash/securities.py:181 | a column's covariance with itself is the sample variance of its numbers, NaN below two numbers, never negative |
| Frames.CovarianceMatrixFacts | risk_dash/securities.py:181-184 | `cov()` is symmetric and its diagonal holds the columns' sample variances |
| Frames.QuadFormOfOne | risk_dash/securities.py:185 | `w^T C w` with the single weight 1 is C's one entry |
| Securities.KeyDeterminesName | risk_dash/securities.py:73 | two equities share a dictionary key exactly when they share a name |
| Securities.Equity.constructor | risk_dash/securities.py:27-34 | stores the arguments, the entry value `ordered_price * quantity` and the type `Equity` |
| Securities.Equity.Cost | risk_dash/securities.py:152 | `quantity * ordered_price` is the entry value |
| Securities.Equity.Valuation | risk_dash/securities.py:36-38 | the gain is the value at the price less the entry value, and 0 at the entry price |
| Securities.Equity.MarkToMarket | risk_dash/securities.py:40-43 | stores the market value `quantity * price` and returns the valuation, which is the market value less the entry value |
| Securities.Store | risk_dash/securities.py:73 | `port[key] = asset` keeps keys distinct; the entry with that key takes the new position in its place, every other entry keeps its place, and a new key is appended last |
| Securities.Keyed | risk_dash/securities.py:71-74 | the dictionary has distinct keys, holds only listed positions, and every listed position's key |
| Securities.KeyedCount | risk_dash/securities.py:71-74 | the dictionary has at most one entry per listed position |
| Securities.KeyedLastWins | risk_dash/securities.py:71-74 | the position stored under a key is the last listed one with that key |
| Securities.DuplicateKeyShrinks | risk_dash/securities.py:71-74 | two listed positions with one key leave fewer entries than positions |
| Securities.ApportionedKeys | risk_dash/securities.py:156-159 | the quotient dictionary has exactly the keys of the positions |
| Securities.ApportionedAt | risk_dash/securities.py:156-159 | each key holds its last position's value divided by the total |
| Securities.Portfolio.constructor | risk_dash/securities.py:69-78 | the portfolio is the keyed dictionary of the list, its statistics objects are those of its positions, and every cache is unset |
| Securities.Portfolio.KeySet | risk_dash/securities.py:86 | the dictionary's key set is the keys of its entries |
| Securities.Portfolio.GetDate | risk_dash/securities.py:103-113 | the date index of the first position whose table is longest: no table is longer, every earlier one is shorter |
| Securities.Portfolio.Costs | risk_dash/securities.py:151-154 | the per-key `quantity * ordered_price` are the entry values |
| Securities.Portfolio.Value | risk_dash/securities.py:80-88 | returns the sum of the positions' valuations at their current prices and changes nothing |
| Securities.Portfolio.ValueIsMarketLessCost | risk_dash/securities.py:80-88 | the portfolio's value is its total market value less its total entry value |
| Securities.Portfolio.ValueAtEntryPrices | risk_dash/securities.py:80-88 | at the entry prices the value is 0 |
| Securities.Portfolio.Snapshot | risk_dash/securities.py:95-99 | the record has every key, each mapped to its position's entry value and market value |
| Securities.Portfolio.MarkEntry | risk_dash/securities.py:97-99 | one step marks one position and returns its gain and its record |
| Securities.Portfolio.Mark | risk_dash/securities.py:90-101 | `market_change` is the sum of the valuations, `marked_portfolio` is the snapshot, every position holds its market value |
| Securities.Portfolio.ComputedWeights | risk_dash/securities.py:146-161 | ZeroDivisionError exactly when the total entry value is 0; otherwise a weight for exactly the portfolio's keys |
| Securities.Portfolio.WeightIsShare | risk_dash/securities.py:156-159 | each key's weight is its position's share of the total entry value |
| Securities.Portfolio.WeightsSumToOne | risk_dash/securities.py:151-159 | the weights are the shares of the entry values and add up to 1 |
| Securities.Portfolio.SingleWeightIsOne | risk_dash/securities.py:156-159 | a one-position portfolio weighs its position 1 |
| Securities.Portfolio.SetWeights | risk_dash/securities.py:146-161 | returns the weights and caches them; a zero total leaves the cache as it was |
| Securities.Portfolio.GetWeights | risk_dash/securities.py:163-172 | returns the weights; a filled cache is returned unchanged, an empty one is filled |
| Securities.Portfolio.Assembled | risk_dash/securities.py:122-126 | after n positions the table has the date index, one column per date for each of its 2n columns |
| Securities.Portfolio.AssembledNone | risk_dash/securities.py:124-126 | the loop fails exactly when some position's column cannot be aligned |
| Securities.Portfolio.AssembledPair | risk_dash/securities.py:124-126 | position k owns columns 2k (its aligned column, under its key) and 2k+1 (that column times its weight, under key + `_port_weighted`) |
| Securities.Portfolio.BuildFrame | risk_dash/securities.py:122-126 | the loop over the positions builds exactly the assembled table, or stops at the first column that cannot be aligned |
| Securities.Portfolio.WeightedColumnsPicked | risk_dash/securities.py:128 | when no key contains `_port_weighted`, the mask picks exactly the weighted columns |
| Securities.Portfolio.PortfolioColumnIsWeightedSum | risk_dash/securities.py:124-128 | the `portfolio` column at each date is the sum over the positions of their column times their weight, NaN counting as 0 |
| Securities.Portfolio.PortfolioTable | risk_dash/securities.py:115-132 | ZeroDivisionError exactly when the total entry value is 0; a built table is well shaped over `get_date()`'s index |
| Securities.Portfolio.PortfolioTableBuilt | risk_dash/securities.py:121-130 | a built table is the loop's table over `get_date()` with its `portfolio` column |
| Securities.Portfolio.Tabulate | risk_dash/securities.py:121-130 | computes `PortfolioTable`, fails exactly when the weights do |
| Securities.Portfolio.SetPortfolioMarketData | risk_dash/securities.py:115-132 | returns `PortfolioTable`; a built table is cached, and a caught ValueError leaves the cache as it was; the weight cache is filled unless the weights fail |
| Securities.Portfolio.GetPortfolioMarketData | risk_dash/securities.py:134-144 | a cached table is returned unchanged; otherwise the table is built and cached, its absence is an AttributeError, and the weights are cached unless they raise |
| Securities.Portfolio.OwnColumnsKept | risk_dash/securities.py:181 | when no key contains `port`, `~columns.str.contains('port')` keeps exactly the positions' own columns, in iteration order |
| Securities.Portfolio.VarianceIsQuadForm | risk_dash/securities.py:180-185 | when no key contains `port`, the variance of the assembled table is `w^T C w` with each position's weight in iteration order and the covariance matrix of the positions' own columns |
| Securities.Portfolio.PortfolioVariance | risk_dash/securities.py:174-188 | for any number of positions whose keys lack `port`, the variance of the built table is `w^T C w` with the value weights in iteration order and the covariance matrix of the positions' own columns |
| Securities.Portfolio.SinglePositionVariance | risk_dash/securities.py:174-188 | for one position whose key lacks `port`, the parametric variance of the built table is its column's covariance with itself |
| Securities.Portfolio.SetPortVariance | risk_dash/securities.py:174-188 | ZeroDivisionError on a zero total, AttributeError without a table, otherwise `w^T C w` over the non-`port` columns; caches the variance and `variance * confidence` together |
| Securities.Portfolio.GetPortVariance | risk_dash/securities.py:190-199 | cached values are returned unchanged; otherwise `set_port_variance` runs with the default confidence, caching the returned variance and value at risk and the weights; on an error the caches stay as they were |
| Securities.RiskColumns | risk_dash/securities.py:181 | every kept column is a column of the table whose name does not contain `port` |
| Securities.PortVarianceOf | risk_dash/securities.py:180-185 | KeyError exactly when a kept column's name has no weight |
| Securities.SingleTableVariance | risk_dash/securities.py:181-185 | a one-position table weighted 1 has the variance of the position's column |
| Securities.OwnColumns | risk_dash/securities.py:124-126 | the first column of each of the first n pairs, one per pair, each as long as the index |
| Securities.VarianceOfOneColumn | risk_dash/securities.py:181-185 | when the kept columns are the first alone and it weighs 1, the variance is its covariance with itself |
| SimGen.NormalArgs | risk_dash/simgen.py:31-34 | the argument dictionary has exactly `location` and `scale`, holding the given values |
| SimGen.NormalDistribution.constructor | risk_dash/simgen.py:30-34 | the generator keeps that dictionary |
| SimGen.CumSumFrom | risk_dash/simgen.py:51 | entry j is the start plus the draws 0..j |
| SimGen.CumSum | risk_dash/simgen.py:51 | `cumsum`: entry j is the total of the draws 0..j |
| SimGen.Paths | risk_dash/simgen.py:51 | one path per draw sequence, each its running sum |
| SimGen.PathsShape | risk_dash/simgen.py:51-53 | the paths form an n x periods matrix whose (i, j) entry is the total of draws 0..j of sequence i |
| SimGen.TerminalIsTotal | risk_dash/simgen.py:59 | `simulations[:, -1]` holds each sequence's total |
| SimGen.MeanPathStep | risk_dash/simgen.py:55 | the mean of the paths at step j is the total of the per-step mean draws up to j |
| SimGen.MeanPathIsCumSumOfMeanDraws | risk_dash/simgen.py:55 | `simulation_mean` is the running sum of the per-step mean draws |
| SimGen.SingleSimulation | risk_dash/simgen.py:55-59 | with one simulation the mean path is its running sum, every std is 0 and the terminal distribution is its total |
| SimGen.StdZeroIffPathsAgree | risk_dash/simgen.py:57 | each step's std is non-negative and zero exactly when all paths agree at that step |
| SimGen.NaiveMonteCarlo.constructor | risk_dash/simgen.py:17-22 | keeps the generator and the keyword arguments, with no summaries yet |
| SimGen.NaiveMonteCarlo.Attribute | risk_dash/simgen.py:49 | only the name `Generator` finds the generator |
| SimGen.NaiveMonteCarlo.Simulate | risk_dash/simgen.py:42-61 | returns the paths and stores their per-step mean, per-step std and terminal values; IndexError with no simulations or no periods |
| SimGen.NaiveMonteCarlo.SimulateAsWritten | risk_dash/simgen.py:49 | as written, every run with a simulation raises AttributeError, and a run with none raises IndexError |

## Left out

- Downloading a price table (`gather`, the `quandl` API) is left out. The table is the `gathered` argument of the `StockData` constructor. The constructor requires a non-empty table, because `max` of an empty date column raises and the download is not modelled.
- Only `date` and `adj_close` of a downloaded row are modelled. The other columns feed nothing in the core.
- numpy's `log` and `sqrt` are not modelled: they are the parameters `ln` and `sqrt`. Only the lemma about standard deviations assumes that `sqrt` is the square root.
- Floating-point rounding, overflow and infinities are not modelled. Floats are reals, and NaN is explicit where a computed column or statistic produces one; the downloaded prices are never missing.
- `construct_portfolio_csv` (reading a CSV, downloading each ticker) is left out. It is a file-and-network loader.
- The `Trade` class and the abstract `_Security`/`_MarketData`/`_RandomGen` bases are left out. They are not part of the core.
- `marketdata.interpolate('linear')` in `set_portfolio_marketdata` is not modelled. Gaps left by reindexing stay NaN, and the row sums skip them.
- Securities.Portfolio.SetPortfolioMarketData: weighs the table with `ComputedWeights()`, where the source reads `get_weights()`. The two agree because the weight cache always holds the computed weights.
- Securities.Portfolio.SetPortfolioMarketData: the `print` in the `except ValueError` branch is not modelled. The call returns `Success(None)` there.
- MarketData.LogReturns: only the first row is filled with 0. `fillna(0)` also zeroes a return that is NaN because a price is missing or not positive; the model has no missing prices and takes `ln` as a total parameter, so that case does not arise.
- MarketData.StockData.constructor: requires `days >= 1`. For a smaller span `ewm(span=days)` raises ValueError, which the model does not represent.
- Securities.Portfolio.SetPortfolioMarketData: `key` is one of the seven columns of `ColumnName`. A name that is not a column, including `get_portfolio_marketdata()`'s default `key=None`, raises KeyError, which `except ValueError` does not catch; the model does not represent that error.
- Securities.Portfolio.constructor: `port = None` (no securities) is an empty dictionary. Every operation that iterates over `port` requires a non-empty one, since the source would raise on `None`.
- Securities.Portfolio.GetPortVariance: the default confidence `norm.pdf(.025)` is the parameter `defaultConfidence`. Its value is a scipy density that is not modelled.
- `set_var` and the percentile it takes (`np.percentile`) are left out. Percentile interpolation is not part of the model.
- Drawing random numbers is not modelled. `NormalDistribution.generate` is replaced by the `draws` argument of `Simulate`.
- SimGen.NaiveMonteCarlo.Simulate: the source stores `simulation_mean` and `simulation_std` before `[:, -1]` raises IndexError with no periods or no simulations. The model leaves all three summaries unchanged on that error.
- SimGen.NaiveMonteCarlo.SimulateAsWritten: with no simulations, the source stores NaN in `simulation_mean` and `simulation_std` before `[:, -1]` raises IndexError. The model leaves the summaries unchanged.
- SimGen.NaiveMonteCarlo.Simulate: the counts are `nat`, so negative counts are outside the model. In the source a negative `number_of_simulations` gives an empty `range` and takes the IndexError path of 0. A negative `periods_forward` makes `np.random.normal` raise ValueError.
- SimGen.NaiveMonteCarlo.SimulateAsWritten: the same `nat` counts; negative counts are outside the model.
- Python dictionaries are ordered by insertion. The model keeps that order, but sort stability in `sort_index()` is not stated: `SortByDate` is proved sorted and a permutation, and it puts a new row before rows of an equal date.
- The exceptions are `Result` failures. The model does not cover one being caught elsewhere, nor a partial state left behind, except where stated above.

## Findings

| source | as written | input that shows it | evidently intended | confidence | as-written member | corrected member |
|---|---|---|---|---|---|---|
| risk_dash/simgen.py:49 | `self.Geneprator.generate(...)` looks up a misspelled attribute that no object sets | `simulate(10, 1)` on any `NaiveMonteCarlo`: AttributeError before any draw | `self.Generator.generate(periods_forward)`, the generator given to the constructor | high, not executed | SimGen.NaiveMonteCarlo.SimulateAsWritten | SimGen.NaiveMonteCarlo.Simulate |
