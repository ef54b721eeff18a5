/** Positions and the portfolio of the risk engine: equities bought at a
    price, a portfolio keyed by `name + ' ' + type`, its value, its mark to
    market, its value weights, the table of the positions' aligned market
    data and the parametric variance of the weighted portfolio. */
module Securities {
  import opened Wrappers
  import opened Numeric
  import opened MarketData
  import opened Frames

  /** The exceptions the portfolio's operations let through: a zero total
      entry value (ZeroDivisionError), a market-data table that was never
      built (AttributeError) and a column with no weight (KeyError). */
  datatype PortfolioError = ZeroTotalValue | MarketDataUnset | UnknownColumn

  /** The dictionary key of a position. */
  function KeyOf(name: string, kind: string): string
  {
    name + " " + kind
  }

  /** Two positions of one type share a key exactly when they share a name. */
  lemma KeyDeterminesName(a: string, b: string, kind: string)
    ensures KeyOf(a, kind) == KeyOf(b, kind) <==> a == b
  {
    if KeyOf(a, kind) == KeyOf(b, kind) {
      assert |a| == |b|;
      assert a == KeyOf(a, kind)[..|a|];
      assert b == KeyOf(b, kind)[..|b|];
    }
  }

  /** `Equity(ticker, market_data, ordered_price, quantity, date_ordered)`.
      Only the market value changes after construction. */
  class Equity {
    const name: string
    const marketData: StockData
    const orderedPrice: real
    const quantity: real
    const initialValue: real
    const dateOrdered: int
    const kind: string
    var marketValue: Option<real>

    /** The entry value is the price paid times the quantity. */
    predicate Valid()
    {
      initialValue == orderedPrice * quantity && kind == "Equity"
    }

    constructor (ticker: string, marketData: StockData, orderedPrice: real, quantity: real, dateOrdered: int)
      ensures Valid()
      ensures name == ticker && this.marketData == marketData && this.dateOrdered == dateOrdered
      ensures this.orderedPrice == orderedPrice && this.quantity == quantity
      ensures marketValue == None
    {
      name := ticker;
      this.marketData := marketData;
      this.orderedPrice := orderedPrice;
      this.quantity := quantity;
      initialValue := orderedPrice * quantity;
      this.dateOrdered := dateOrdered;
      kind := "Equity";
      marketValue := None;
    }

    function Key(): string
    {
      KeyOf(name, kind)
    }

    /** `quantity * ordered_price`, the cost `set_weights` weighs by; for a
        valid position it is the entry value. */
    function Cost(): (c: real)
      ensures Valid() ==> c == initialValue
    {
      quantity * orderedPrice
    }

    /** The position's value at price `p`. */
    function MarketValueAt(p: real): real
    {
      quantity * p
    }

    /** `valuation(current_price)`: the gain since entry, which is the value
        at `currentPrice` less the entry value, and nothing at the entry
        price. */
    function Valuation(currentPrice: real): (change: real)
      requires Valid()
      ensures change == MarketValueAt(currentPrice) - initialValue
      ensures currentPrice == orderedPrice ==> change == 0.0
    {
      (currentPrice - orderedPrice) * quantity
    }

    /** `mark_to_market(current_price)`: store the market value and return
        the gain, which is the valuation at that price. */
    method MarkToMarket(currentPrice: real) returns (change: real)
      requires Valid()
      modifies this`marketValue
      ensures marketValue == Some(MarketValueAt(currentPrice))
      ensures change == Valuation(currentPrice)
      ensures change == marketValue.value - initialValue
    {
      marketValue := Some(MarketValueAt(currentPrice));
      change := (currentPrice - orderedPrice) * quantity;
    }
  }

  // ---------------------------------------------------------------------
  // Keying a list of positions

  /** The keys of a sequence of positions. */
  function KeysOf(d: seq<Equity>): (k: seq<string>)
    ensures |k| == |d|
  {
    seq(|d|, i requires 0 <= i < |d| => d[i].Key())
  }

  /** No two positions share a key. */
  predicate DistinctKeys(d: seq<Equity>)
  {
    forall i, j :: 0 <= i < j < |d| ==> d[i].Key() != d[j].Key()
  }

  /** The dictionary `{keys[i]: values[i] / total for i in range(n)}`, built
      in order, so a repeated key holds its last quotient. */
  function Apportioned(keys: seq<string>, values: seq<real>, total: real, n: nat): map<string, real>
    requires |keys| == |values| && n <= |keys| && total != 0.0
  {
    if n == 0 then map[]
    else Apportioned(keys, values, total, n - 1)[keys[n - 1] := values[n - 1] / total]
  }

  /** The dictionary's keys are the first `n` keys. */
  lemma {:induction false} ApportionedKeys(keys: seq<string>, values: seq<real>, total: real, n: nat)
    requires |keys| == |values| && n <= |keys| && total != 0.0
    ensures forall i :: 0 <= i < n ==> keys[i] in Apportioned(keys, values, total, n)
    ensures forall k :: k in Apportioned(keys, values, total, n) ==> exists i :: 0 <= i < n && keys[i] == k
  {
    if n > 0 {
      ApportionedKeys(keys, values, total, n - 1);
    }
  }

  /** A key that does not recur later among the first `n` is mapped to its
      own quotient. */
  lemma {:induction false} ApportionedAt(keys: seq<string>, values: seq<real>, total: real, n: nat, i: nat)
    requires |keys| == |values| && i < n <= |keys| && total != 0.0
    requires forall j :: i < j < n ==> keys[j] != keys[i]
    ensures keys[i] in Apportioned(keys, values, total, n)
    ensures Apportioned(keys, values, total, n)[keys[i]] == values[i] / total
  {
    if i < n - 1 {
      ApportionedAt(keys, values, total, n - 1, i);
    }
  }

  /** `port[key] = asset` on the dictionary `d`: a key already present keeps
      its place and takes the new position; a new key is appended. */
  function Store(d: seq<Equity>, asset: Equity): (d': seq<Equity>)
    requires DistinctKeys(d)
    ensures DistinctKeys(d')
    ensures asset in d' && |d| <= |d'| <= |d| + 1
    ensures forall i :: 0 <= i < |d'| ==> d'[i] == asset || d'[i] in d
    ensures forall k :: k in KeysOf(d) ==> k in KeysOf(d')
    ensures asset.Key() in KeysOf(d')
    ensures forall i :: 0 <= i < |d| && d[i].Key() != asset.Key() ==> d[i] in d'
    ensures asset.Key() in KeysOf(d) <==> |d'| == |d|
    ensures forall i :: 0 <= i < |d| ==> d'[i] == if d[i].Key() == asset.Key() then asset else d[i]
    ensures |d'| > |d| ==> d'[|d|] == asset
  {
    var keys := KeysOf(d);
    var p := FirstIndex(keys, asset.Key());
    if p < |d| then
      var d' := d[p := asset];
      StoreReplaces(d, asset, p);
      d'
    else
      var d' := d + [asset];
      StoreAppends(d, asset);
      d'
  }

  lemma StoreReplaces(d: seq<Equity>, asset: Equity, p: nat)
    requires DistinctKeys(d) && p < |d| && d[p].Key() == asset.Key()
    ensures DistinctKeys(d[p := asset])
    ensures forall i :: 0 <= i < |d| ==> KeysOf(d[p := asset])[i] == KeysOf(d)[i] == d[i].Key()
  {
  }

  lemma StoreAppends(d: seq<Equity>, asset: Equity)
    requires DistinctKeys(d) && asset.Key() !in KeysOf(d)
    ensures DistinctKeys(d + [asset])
    ensures forall i :: 0 <= i < |d| ==> KeysOf(d + [asset])[i] == KeysOf(d)[i] == d[i].Key()
    ensures KeysOf(d + [asset])[|d|] == asset.Key()
  {
    forall i | 0 <= i < |d| ensures d[i].Key() != asset.Key() {
      assert KeysOf(d)[i] == d[i].Key();
    }
  }

  /** The dictionary `{name + ' ' + type: asset}` built from `securities`,
      as its values in iteration order. */
  function Keyed(securities: seq<Equity>): (d: seq<Equity>)
    ensures DistinctKeys(d)
    ensures forall i :: 0 <= i < |d| ==> d[i] in securities
    ensures forall i :: 0 <= i < |securities| ==> securities[i].Key() in KeysOf(d)
  {
    if |securities| == 0 then []
    else
      var n := |securities| - 1;
      var d := Keyed(securities[..n]);
      assert forall i :: 0 <= i < n ==> securities[i] == securities[..n][i];
      assert forall i :: 0 <= i < n ==> securities[i].Key() in KeysOf(d);
      hide Store;
      Store(d, securities[n])
  }

  /** Keying one more position replaces the entry with its key, or appends
      it when the key is new. */
  lemma KeyedStep(securities: seq<Equity>, i: nat)
    requires i < |securities|
    ensures Keyed(securities[..i + 1]) == Store(Keyed(securities[..i]), securities[i])
  {
    assert securities[..i + 1][..i] == securities[..i];
  }

  /** The dictionary has at most one entry per position in the list. */
  lemma {:induction false} KeyedCount(securities: seq<Equity>)
    ensures |Keyed(securities)| <= |securities|
  {
    if |securities| > 0 {
      KeyedCount(securities[..|securities| - 1]);
    }
  }

  /** The position stored under a key is the last one in the list with
      that key. */
  lemma {:induction false} KeyedLastWins(securities: seq<Equity>, i: nat)
    requires i < |securities|
    requires forall j :: i < j < |securities| ==> securities[j].Key() != securities[i].Key()
    ensures securities[i] in Keyed(securities)
  {
    hide Store, KeysOf, DistinctKeys;
    var n := |securities| - 1;
    var init := securities[..n];
    if i < n {
      assert init[i] == securities[i];
      assert forall j :: i < j < n ==> init[j] == securities[j];
      KeyedLastWins(init, i);
      var d := Keyed(init);
      var k :| 0 <= k < |d| && d[k] == securities[i];
    }
  }

  /** A later position with an equal key overwrites the earlier one, so
      the dictionary has fewer entries than the list has positions. */
  lemma {:induction false} DuplicateKeyShrinks(securities: seq<Equity>, i: nat, j: nat)
    requires i < j < |securities| && securities[i].Key() == securities[j].Key()
    ensures |Keyed(securities)| < |securities|
  {
    var n := |securities| - 1;
    var init := securities[..n];
    KeyedCount(init);
    if j == n {
      assert init[i] == securities[i];
    } else {
      DuplicateKeyShrinks(init, i, j);
    }
  }

  // ---------------------------------------------------------------------
  // The portfolio

  class Portfolio {
    /** `self.port`, as its values in iteration order; an empty sequence
        stands for `port = None`. */
    const entries: seq<Equity>
    /** The statistics objects of the positions. */
    const sources: set<StockData>
    var marketChange: Option<real>
    var markedPortfolio: Option<map<string, (real, real)>>
    var weights: Option<map<string, real>>
    var marketData: Option<Frame>
    var portVariance: Option<Num>
    var parametricVaR: Option<Num>

    /** Every position is valid and has a valid statistics object, and no
        two positions share a key. */
    predicate Valid()
    {
      && DistinctKeys(entries)
      && (forall i :: 0 <= i < |entries| ==> entries[i].Valid() && entries[i].marketData.Valid())
    }

    /** `Portfolio(securities)`: the list is keyed into a dictionary; an
        empty list leaves the portfolio without one. */
    constructor (securities: seq<Equity>)
      requires forall i :: 0 <= i < |securities| ==> securities[i].Valid() && securities[i].marketData.Valid()
      ensures Valid()
      ensures entries == Keyed(securities)
      ensures sources == set i | 0 <= i < |entries| :: entries[i].marketData
      ensures marketChange == None && markedPortfolio == None && weights == None
      ensures marketData == None && portVariance == None && parametricVaR == None
      ensures Coherent()
    {
      var dict: seq<Equity> := [];
      for i := 0 to |securities|
        invariant dict == Keyed(securities[..i])
      {
        KeyedStep(securities, i);
        dict := Store(dict, securities[i]);
      }
      assert securities[..|securities|] == securities;
      forall i | 0 <= i < |dict| ensures dict[i].Valid() && dict[i].marketData.Valid() {
        var j :| 0 <= j < |securities| && securities[j] == dict[i];
      }
      entries := dict;
      sources := set i | 0 <= i < |dict| :: dict[i].marketData;
      marketChange := None;
      markedPortfolio := None;
      weights := None;
      marketData := None;
      portVariance := None;
      parametricVaR := None;
    }

    /** The dictionary keys in iteration order. */
    function Keys(): (k: seq<string>)
      ensures |k| == |entries|
    {
      KeysOf(entries)
    }

    /** The dictionary keys as a set. */
    function KeySet(): (k: set<string>)
      ensures forall i :: 0 <= i < |entries| ==> entries[i].Key() in k
      ensures forall key :: key in k ==> key in Keys()
    {
      var k := set i | 0 <= i < |entries| :: entries[i].Key();
      assert forall i :: 0 <= i < |entries| ==> Keys()[i] == entries[i].Key();
      k
    }

    /** The current price of the position at place `i`. */
    function PriceAt(i: nat): real
      requires Valid() && i < |entries|
    {
      entries[i].marketData.CurrentPrice()
    }

    /** Each position's gain at its current price, in iteration order. */
    function Valuations(): (v: seq<real>)
      requires Valid()
      ensures |v| == |entries|
    {
      seq(|entries|, i requires 0 <= i < |entries| => entries[i].Valuation(PriceAt(i)))
    }

    /** Each position's value at its current price, in iteration order. */
    function MarketValues(): (v: seq<real>)
      requires Valid()
      ensures |v| == |entries|
    {
      seq(|entries|, i requires 0 <= i < |entries| => entries[i].MarketValueAt(PriceAt(i)))
    }

    /** Each position's entry value, in iteration order. */
    function EntryValues(): (v: seq<real>)
      requires Valid()
      ensures |v| == |entries|
    {
      seq(|entries|, i requires 0 <= i < |entries| => entries[i].initialValue)
    }

    /** Each position's `quantity * ordered_price`, in iteration order; these
        are the entry values. */
    function Costs(): (v: seq<real>)
      requires Valid()
      ensures v == EntryValues()
    {
      var v := seq(|entries|, i requires 0 <= i < |entries| => entries[i].Cost());
      assert forall i :: 0 <= i < |entries| ==> v[i] == EntryValues()[i];
      v
    }

    /** `value()`: the sum over the positions of their valuation at the
        current price. It changes nothing. */
    method Value() returns (value: real)
      requires Valid() && |entries| > 0
      ensures value == Sum(Valuations())
    {
      value := 0.0;
      for i := 0 to |entries|
        invariant value == Sum(Valuations()[..i])
      {
        assert Valuations()[..i + 1][..i] == Valuations()[..i];
        var asset := entries[i];
        value := value + asset.Valuation(asset.marketData.CurrentPrice());
      }
      assert Valuations()[..|entries|] == Valuations();
    }

    /** The portfolio's gain is its market value less what it cost. */
    lemma ValueIsMarketLessCost()
      requires Valid()
      ensures Sum(Valuations()) == Sum(MarketValues()) - Sum(EntryValues())
    {
      assert Valuations() == Minus(MarketValues(), EntryValues());
      SumMinus(MarketValues(), EntryValues());
    }

    /** At the entry prices the portfolio has gained nothing. */
    lemma ValueAtEntryPrices()
      requires Valid()
      requires forall i :: 0 <= i < |entries| ==> PriceAt(i) == entries[i].orderedPrice
      ensures Sum(Valuations()) == 0.0
    {
      SumConstant(Valuations(), 0.0);
    }

    /** The `(initial_value, marketvalue)` pair `mark` records for the
        position at place `i`. */
    function SnapshotEntry(i: nat): (real, real)
      requires Valid() && i < |entries|
    {
      (entries[i].initialValue, MarketValues()[i])
    }

    /** The record of the first `n` positions, by key. */
    function SnapshotOf(n: nat): (m: map<string, (real, real)>)
      requires Valid() && n <= |entries|
    {
      map i | 0 <= i < n :: entries[i].Key() := SnapshotEntry(i)
    }

    /** The record `mark` leaves: every key of the portfolio, mapped to its
        position's entry value and market value at the current price. */
    function Snapshot(): (m: map<string, (real, real)>)
      requires Valid()
      ensures m.Keys == KeySet()
      ensures forall i :: 0 <= i < |entries| ==> m[entries[i].Key()] == SnapshotEntry(i)
    {
      var m := SnapshotOf(|entries|);
      forall i | 0 <= i < |entries| ensures m[entries[i].Key()] == SnapshotEntry(i) {
        assert entries[i].Key() in m;
      }
      m
    }

    lemma SnapshotStep(n: nat)
      requires Valid() && n < |entries|
      ensures SnapshotOf(n + 1) == SnapshotOf(n)[entries[n].Key() := SnapshotEntry(n)]
    {
    }

    /** One step of `mark()`: mark the position at place `i` and return its
        gain and its record. */
    method MarkEntry(i: nat) returns (change: real, entry: (real, real))
      requires Valid() && i < |entries|
      modifies entries[i]
      ensures change == Valuations()[i]
      ensures entry == SnapshotEntry(i)
      ensures entries[i].marketValue == Some(MarketValues()[i])
    {
      var asset := entries[i];
      change := asset.MarkToMarket(asset.marketData.CurrentPrice());
      entry := (asset.initialValue, asset.marketValue.value);
    }

    /** `mark()`: mark every position to its current price, then record the
        total gain and the per-key record. */
    method Mark()
      requires Valid() && |entries| > 0
      modifies this`marketChange, this`markedPortfolio, set i | 0 <= i < |entries| :: entries[i]
      ensures marketChange == Some(Sum(Valuations()))
      ensures markedPortfolio == Some(Snapshot())
      ensures forall i :: 0 <= i < |entries| ==> entries[i].marketValue == Some(MarketValues()[i])
    {
      hide SnapshotEntry, MarketValues, Valuations;
      var total := 0.0;
      var snapshot: map<string, (real, real)> := map[];
      for i := 0 to |entries|
        invariant total == Sum(Valuations()[..i])
        invariant snapshot == SnapshotOf(i)
        invariant forall j :: 0 <= j < i ==> entries[j].marketValue == Some(MarketValues()[j])
      {
        assert Valuations()[..i + 1][..i] == Valuations()[..i];
        SnapshotStep(i);
        assert forall j :: 0 <= j < i ==> entries[j].Key() != entries[i].Key();
        var change, entry := MarkEntry(i);
        total := total + change;
        snapshot := snapshot[entries[i].Key() := entry];
      }
      assert Valuations()[..|entries|] == Valuations();
      marketChange := Some(total);
      markedPortfolio := Some(snapshot);
    }

    /** The number of dated rows of each position, in iteration order. */
    function RowCounts(): (c: seq<int>)
      requires Valid()
      ensures |c| == |entries|
    {
      seq(|entries|, i requires 0 <= i < |entries| => |entries[i].marketData.rows|)
    }

    /** `get_date()`: the date index of the first position, in iteration
        order, whose table has the most rows. */
    function GetDate(): (index: seq<int>)
      requires Valid() && |entries| > 0
      ensures exists i :: 0 <= i < |entries| && index == Dates(entries[i].marketData.rows)
                && forall j :: 0 <= j < i ==> |entries[j].marketData.rows| < |index|
      ensures forall i :: 0 <= i < |entries| ==> |entries[i].marketData.rows| <= |index|
    {
      var counts := RowCounts();
      var i := FirstMaxIndex(counts);
      assert forall j :: 0 <= j < |entries| ==> counts[j] == |entries[j].marketData.rows|;
      Dates(entries[i].marketData.rows)
    }

    // -------------------------------------------------------------------
    // Value weights

    /** `set_weights()` as a value: each key's entry value over the total
        entry value, or ZeroDivisionError when that total is zero. */
    function ComputedWeights(): (r: Result<map<string, real>, PortfolioError>)
      requires Valid()
      ensures r.Failure? <==> Sum(Costs()) == 0.0
      ensures r.Failure? ==> r.error == ZeroTotalValue
      ensures r.Success? ==> r.value.Keys == KeySet()
    {
      var costs := Costs();
      var total := Sum(costs);
      if total == 0.0 then Failure(ZeroTotalValue)
      else
        var m := Apportioned(Keys(), costs, total, |entries|);
        ApportionedKeys(Keys(), costs, total, |entries|);
        assert forall i :: 0 <= i < |entries| ==> Keys()[i] == entries[i].Key();
        Success(m)
    }

    /** The weights, read in iteration order. */
    function OrderedWeights(): (w: seq<real>)
      requires Valid() && ComputedWeights().Success?
      ensures |w| == |entries|
    {
      var m := ComputedWeights().value;
      seq(|entries|, i requires 0 <= i < |entries| => m[entries[i].Key()])
    }

    /** The weight stored under a position's key is its share. */
    lemma WeightIsShare(i: nat)
      requires Valid() && ComputedWeights().Success? && i < |entries|
      ensures OrderedWeights()[i] == Shares(Costs())[i]
    {
      var keys := Keys();
      assert forall j :: 0 <= j < |entries| ==> keys[j] == entries[j].Key();
      ApportionedAt(keys, Costs(), Sum(Costs()), |entries|, i);
    }

    /** The weight stored under each key is that position's share of the
        total entry value, and the weights add up to 1. */
    lemma WeightsSumToOne()
      requires Valid() && ComputedWeights().Success?
      ensures OrderedWeights() == Shares(EntryValues())
      ensures Sum(OrderedWeights()) == 1.0
    {
      forall i | 0 <= i < |entries| ensures OrderedWeights()[i] == Shares(EntryValues())[i] {
        WeightIsShare(i);
      }
      assert OrderedWeights() == Shares(EntryValues());
      SharesSumToOne(EntryValues());
    }

    /** The caches hold what the portfolio's own operations compute: the
        weights are `set_weights`' result, the table has a name and one entry
        per date for every column, and the variance and the value at risk
        are set together. */
    predicate Coherent()
      requires Valid()
      reads this`weights, this`marketData, this`portVariance, this`parametricVaR
    {
      && (weights.Some? ==> ComputedWeights() == Success(weights.value))
      && (marketData.Some? ==> marketData.value.Shaped())
      && (portVariance.Some? <==> parametricVaR.Some?)
    }

    /** `set_weights()`: compute the weights and cache them; on a zero
        total the exception leaves the cache as it was. */
    method SetWeights() returns (r: Result<map<string, real>, PortfolioError>)
      requires Valid() && |entries| > 0 && Coherent()
      modifies this`weights
      ensures r == ComputedWeights()
      ensures r.Success? ==> weights == Some(r.value)
      ensures r.Failure? ==> weights == old(weights)
      ensures Coherent()
    {
      r := ComputedWeights();
      if r.Success? {
        weights := Some(r.value);
      }
    }

    /** `get_weights()`: the cached weights when there are some, otherwise
        `set_weights()`. A filled cache is returned and kept unchanged. */
    method GetWeights() returns (r: Result<map<string, real>, PortfolioError>)
      requires Valid() && |entries| > 0 && Coherent()
      modifies this`weights
      ensures r == ComputedWeights()
      ensures old(weights).Some? ==> weights == old(weights) && r == Success(old(weights).value)
      ensures old(weights).None? ==> (r.Success? ==> weights == Some(r.value)) && (r.Failure? ==> weights == None)
      ensures Coherent()
    {
      if weights.Some? {
        return Success(weights.value);
      }
      r := SetWeights();
    }
  
    // -------------------------------------------------------------------
    // The table of market data

    /** Every statistics object has all its columns. */
    predicate DataReady()
      reads sources
    {
      && (forall i :: 0 <= i < |entries| ==> entries[i].marketData in sources)
      && (forall i :: 0 <= i < |entries| ==> entries[i].marketData.Ready())
    }

    /** `market_data[key]` of the position at place `i`, aligned onto
        `index`; None when pandas cannot reindex it. */
    function AlignedColumn(index: seq<int>, i: nat, key: ColumnName): Option<seq<Num>>
      requires DataReady() && i < |entries|
      reads sources
    {
      var data := entries[i].marketData;
      Align(index, Dates(data.rows), data.ColumnValues(key))
    }

    /** The table after the loop of `set_portfolio_marketdata` has handled
        the first `n` positions: for each, its aligned column under its key,
        then that column times the position's weight under the key followed
        by `_port_weighted`; None once a column could not be aligned. */
    function Assembled(index: seq<int>, w: map<string, real>, key: ColumnName, n: nat): (r: Option<Frame>)
      requires DataReady() && n <= |entries| && KeySet() <= w.Keys
      reads sources
      ensures r.Some? ==> r.value.Shaped() && r.value.index == index && |r.value.names| == 2 * n
    {
      if n == 0 then Some(Frame(index, [], []))
      else
        var previous := Assembled(index, w, key, n - 1);
        var aligned := AlignedColumn(index, n - 1, key);
        if previous.None? || aligned.None? then None
        else
          var name := entries[n - 1].Key();
          Some(previous.value.Add(name, aligned.value).Add(name + "_port_weighted", Scaled(aligned.value, w[name])))
    }

    /** The loop stops exactly when some position's column cannot be
        aligned. */
    lemma {:induction false} AssembledNone(index: seq<int>, w: map<string, real>, key: ColumnName, n: nat)
      requires DataReady() && n <= |entries| && KeySet() <= w.Keys
      ensures Assembled(index, w, key, n).None? <==> exists k :: 0 <= k < n && AlignedColumn(index, k, key).None?
    {
      hide AlignedColumn, Scaled, Frame.Add, Frame.Shaped, DataReady, KeySet;
      if n > 0 {
        AssembledNone(index, w, key, n - 1);
      }
    }

    /** In the assembled table, position `k` owns columns `2k` (its aligned
        column, under its key) and `2k + 1` (that column times its weight,
        under the key followed by `_port_weighted`). */
    lemma {:induction false} AssembledPair(index: seq<int>, w: map<string, real>, key: ColumnName, n: nat, k: nat)
      requires DataReady() && k < n <= |entries| && KeySet() <= w.Keys
      requires Assembled(index, w, key, n).Some?
      ensures AlignedColumn(index, k, key).Some?
      ensures var f := Assembled(index, w, key, n).value;
              var name := entries[k].Key();
              && f.names[2 * k] == name && f.names[2 * k + 1] == name + "_port_weighted"
              && f.columns[2 * k] == AlignedColumn(index, k, key).value
              && f.columns[2 * k + 1] == Scaled(f.columns[2 * k], w[name])
    {
      hide AlignedColumn, Scaled, Frame.Add, DataReady, KeySet;
      if k < n - 1 {
        AssembledPair(index, w, key, n - 1, k);
      }
    }

    /** The loop of `set_portfolio_marketdata` over the positions. It changes
        nothing; the first column that cannot be aligned ends it. */
    method BuildFrame(index: seq<int>, w: map<string, real>, key: ColumnName) returns (r: Option<Frame>)
      requires DataReady() && KeySet() <= w.Keys
      ensures r == Assembled(index, w, key, |entries|)
    {
      hide AlignedColumn, Scaled, Frame.Add, Frame.Shaped, DataReady, KeySet;
      var f := Frame(index, [], []);
      for i := 0 to |entries|
        invariant Assembled(index, w, key, i) == Some(f)
      {
        var aligned := AlignedColumn(index, i, key);
        if aligned.None? {
          AssembledNone(index, w, key, |entries|);
          return None;
        }
        var name := entries[i].Key();
        f := f.Add(name, aligned.value);
        f := f.Add(name + "_port_weighted", Scaled(aligned.value, w[name]));
      }
      r := Some(f);
    }

    /** When no key contains `_port_weighted`, the columns the mask
        `str.contains('_port_weighted')` picks in the assembled table are
        exactly the weighted ones, the second of each position's pair. */
    lemma WeightedColumnsPicked(index: seq<int>, w: map<string, real>, key: ColumnName)
      requires DataReady() && KeySet() <= w.Keys && Assembled(index, w, key, |entries|).Some?
      requires forall k :: 0 <= k < |entries| ==> !Contains(entries[k].Key(), "_port_weighted")
      ensures Matching(Assembled(index, w, key, |entries|).value, "_port_weighted", true) == Odds(|entries|)
    {
      var n := |entries|;
      var f := Assembled(index, w, key, n).value;
      forall k | 0 <= k < n
        ensures !Contains(f.names[2 * k], "_port_weighted") && Contains(f.names[2 * k + 1], "_port_weighted")
      {
        AssembledPair(index, w, key, n, k);
        DerivedNamesContainPort(entries[k].Key());
      }
      SelectSecondOfPairs(f.names, "_port_weighted", n);
    }

    /** When no key contains `_port_weighted`, the `portfolio` column of the
        assembled table is, at every date, the sum over the positions of the
        aligned column times the position's weight, NaN counting as 0. */
    lemma PortfolioColumnIsWeightedSum(index: seq<int>, w: map<string, real>, key: ColumnName, r: nat)
      requires DataReady() && KeySet() <= w.Keys && Assembled(index, w, key, |entries|).Some?
      requires forall k :: 0 <= k < |entries| ==> !Contains(entries[k].Key(), "_port_weighted")
      requires r < |index|
      ensures var f := Assembled(index, w, key, |entries|).value;
              WithPortfolio(f).columns[2 * |entries|][r] ==
              Val(Sum(seq(|entries|, k requires 0 <= k < |entries| => f.columns[2 * k][r].OrZero() * w[entries[k].Key()])))
    {
      hide Assembled, AlignedColumn, WithPortfolio, Scaled, Frame.Add, RowTotals, DataReady, KeySet;
      hide SortedByDate, StockData.Valid, Align, HasDuplicates;
      var n := |entries|;
      var f := Assembled(index, w, key, n).value;
      var odds := Odds(n);
      WeightedColumnsPicked(index, w, key);
      assert WithPortfolio(f).columns[2 * n] == Values(RowTotals(f, odds));
      var terms := seq(n, k requires 0 <= k < n => f.columns[odds[k]][r].OrZero());
      var target := seq(n, k requires 0 <= k < n => f.columns[2 * k][r].OrZero() * w[entries[k].Key()]);
      forall k | 0 <= k < n
        ensures terms[k] == target[k]
      {
        OddsAt(n, k);
        AssembledPair(index, w, key, n, k);
        ScaledOrZero(f.columns[2 * k], w[entries[k].Key()], r);
      }
      assert terms == target;
      RowTotalsAt(f, odds, r);
    }

    /** When no key contains `port`, the columns `set_port_variance` keeps
        in the table are the positions' own columns, in iteration order. */
    lemma OwnColumnsKept(index: seq<int>, w: map<string, real>, key: ColumnName)
      requires DataReady() && KeySet() <= w.Keys && Assembled(index, w, key, |entries|).Some?
      requires forall k :: 0 <= k < |entries| ==> !Contains(entries[k].Key(), "port")
      ensures RiskColumns(WithPortfolio(Assembled(index, w, key, |entries|).value)) == Evens(|entries|)
    {
      hide Assembled, AlignedColumn, Scaled, Frame.Add, DataReady, KeySet;
      hide SortedByDate, StockData.Valid, Align, HasDuplicates;
      var n := |entries|;
      var f := Assembled(index, w, key, n).value;
      var g := WithPortfolio(f);
      forall k | 0 <= k < n
        ensures !Contains(f.names[2 * k], "port") && Contains(f.names[2 * k + 1], "port")
      {
        AssembledPair(index, w, key, n, k);
        DerivedNamesContainPort(entries[k].Key());
      }
      SelectFirstOfPairs(f.names, "port", n);
      DerivedNamesContainPort("");
      assert g.names[..|g.names| - 1] == f.names;
      SelectLast(g.names, "port", false);
    }

    /** When no key contains `port`, the variance of the table is `w^T C w`
        with the positions' weights in iteration order and the covariance
        matrix of their own columns. */
    lemma VarianceIsQuadForm(index: seq<int>, w: map<string, real>, key: ColumnName)
      requires DataReady() && KeySet() <= w.Keys && Assembled(index, w, key, |entries|).Some?
      requires forall k :: 0 <= k < |entries| ==> !Contains(entries[k].Key(), "port")
      ensures var f := Assembled(index, w, key, |entries|).value;
              var n := |entries|;
              PortVarianceOf(WithPortfolio(f), w) ==
              Success(QuadForm(seq(n, k requires 0 <= k < n => w[entries[k].Key()]), CovarianceMatrix(OwnColumns(f, n), |index|)))
    {
      hide Assembled, AlignedColumn, Scaled, Frame.Add, DataReady, KeySet, WithPortfolio, Matching;
      hide SortedByDate, StockData.Valid, Align, HasDuplicates;
      var n := |entries|;
      var f := Assembled(index, w, key, n).value;
      var g := WithPortfolio(f);
      var cols := RiskColumns(g);
      OwnColumnsKept(index, w, key);
      assert cols == Evens(n);
      forall k | 0 <= k < n
        ensures cols[k] == 2 * k && g.names[2 * k] == entries[k].Key() && g.columns[2 * k] == f.columns[2 * k]
      {
        EvensAt(n, k);
        AssembledPair(index, w, key, n, k);
        assert g.columns[..|f.columns|][2 * k] == g.columns[2 * k];
      }
      forall k | 0 <= k < |cols| ensures g.names[cols[k]] in w {
        assert entries[k].Key() in KeySet();
      }
      var weights := seq(|cols|, k requires 0 <= k < |cols| => w[g.names[cols[k]]]);
      var data := seq(|cols|, k requires 0 <= k < |cols| => g.columns[cols[k]]);
      assert weights == seq(n, k requires 0 <= k < n => w[entries[k].Key()]);
      assert data == OwnColumns(f, n);
      assert |g.index| == |index|;
    }

    /** The variance of the table `set_portfolio_marketdata(key)` built,
        when no key contains `port`: `w^T C w` with the value weights in
        iteration order (the shares of the entry values, by
        `WeightsSumToOne`) and the covariance matrix of the positions' own
        columns. */
    lemma PortfolioVariance(key: ColumnName)
      requires Valid() && |entries| > 0 && DataReady()
      requires forall k :: 0 <= k < |entries| ==> !Contains(entries[k].Key(), "port")
      requires PortfolioTable(key).Success? && PortfolioTable(key).value.Some?
      ensures ComputedWeights().Success?
      ensures var f := PortfolioTable(key).value.value;
              PortVarianceOf(f, ComputedWeights().value) ==
              Success(QuadForm(OrderedWeights(), CovarianceMatrix(OwnColumns(f, |entries|), |f.index|)))
    {
      hide SortedByDate, StockData.Valid, Align, HasDuplicates, DistinctKeys;
      PortfolioTableBuilt(key);
      hide PortfolioTable, Assembled, AlignedColumn, Scaled, Frame.Add, DataReady, GetDate, ComputedWeights;
      hide PortVarianceOf, RiskColumns, Matching, Covariance, Contains, Valid;
      var n := |entries|;
      var w := ComputedWeights().value;
      var index := GetDate();
      var a := Assembled(index, w, key, n).value;
      var f := WithPortfolio(a);
      assert KeySet() <= w.Keys;
      VarianceIsQuadForm(index, w, key);
      assert OrderedWeights() == seq(n, k requires 0 <= k < n => w[entries[k].Key()]);
      forall k | 0 <= k < n ensures f.columns[2 * k] == a.columns[2 * k] {
        assert f.columns[..|a.columns|][2 * k] == f.columns[2 * k];
      }
      assert OwnColumns(f, n) == OwnColumns(a, n);
    }

    /** With one position, its weight is 1. */
    lemma SingleWeightIsOne()
      requires Valid() && |entries| == 1 && ComputedWeights().Success?
      ensures ComputedWeights().value[entries[0].Key()] == 1.0
    {
      WeightsSumToOne();
      assert OrderedWeights() == [OrderedWeights()[0]];
    }

    /** A portfolio of one position whose key does not contain `port`:
        `set_port_variance` on the table of `set_portfolio_marketdata(key)`
        keeps the position's own column, weighs it by 1 and so yields that
        column's covariance with itself, its sample variance. */
    lemma SinglePositionVariance(key: ColumnName)
      requires Valid() && |entries| == 1 && DataReady() && !Contains(entries[0].Key(), "port")
      requires PortfolioTable(key).Success? && PortfolioTable(key).value.Some?
      ensures ComputedWeights().Success?
      ensures var f := PortfolioTable(key).value.value;
              PortVarianceOf(f, ComputedWeights().value) == Success(Covariance(f.columns[0], f.columns[0]))
    {
      hide SortedByDate, StockData.Valid, Align, HasDuplicates;
      PortfolioTableBuilt(key);
      hide PortfolioTable, Assembled, AlignedColumn, Scaled, Frame.Add, DataReady, GetDate, ComputedWeights;
      hide WithPortfolio, PortVarianceOf, RiskColumns, Matching, Covariance, Contains, Valid;
      var w := ComputedWeights().value;
      var index := GetDate();
      var f := Assembled(index, w, key, |entries|).value;
      var name := entries[0].Key();
      assert f.Shaped() && f.names == [name, name + "_port_weighted"] by {
        AssembledPair(index, w, key, |entries|, 0);
      }
      assert name in w && w[name] == 1.0 by {
        SingleWeightIsOne();
      }
      SingleTableVariance(f, name, w);
    }

    /** What `set_portfolio_marketdata(key)` produces: ZeroDivisionError on
        a zero total entry value; None when some position's column cannot
        be aligned onto `get_date()`'s index; otherwise the assembled table
        with its `portfolio` column. */
    function PortfolioTable(key: ColumnName): (r: Result<Option<Frame>, PortfolioError>)
      requires Valid() && |entries| > 0 && DataReady()
      reads sources
      ensures r.Failure? <==> Sum(Costs()) == 0.0
      ensures r.Success? && r.value.Some? ==> r.value.value.Shaped() && r.value.value.index == GetDate()
      ensures r.Success? && r.value.Some? ==> |r.value.value.columns| == 2 * |entries| + 1
    {
      var weights := ComputedWeights();
      if weights.Failure? then Failure(weights.error)
      else
        var built := Assembled(GetDate(), weights.value, key, |entries|);
        if built.None? then Success(None) else Success(Some(WithPortfolio(built.value)))
    }

    /** A table from `set_portfolio_marketdata(key)` is the loop's table over
        `get_date()`'s index, with the weights, and its `portfolio` column. */
    lemma PortfolioTableBuilt(key: ColumnName)
      requires Valid() && |entries| > 0 && DataReady()
      requires PortfolioTable(key).Success? && PortfolioTable(key).value.Some?
      ensures ComputedWeights().Success?
      ensures Assembled(GetDate(), ComputedWeights().value, key, |entries|).Some?
      ensures PortfolioTable(key).value.value == WithPortfolio(Assembled(GetDate(), ComputedWeights().value, key, |entries|).value)
    {
    }

    /** The table `set_portfolio_marketdata(key)` builds: `get_date()`, the
        weights `get_weights()` returns (the cache agrees with them), the
        loop over the positions and the `portfolio` column. */
    method Tabulate(key: ColumnName) returns (r: Result<Option<Frame>, PortfolioError>)
      requires Valid() && |entries| > 0 && DataReady()
      ensures DataReady()
      ensures r == PortfolioTable(key)
      ensures r.Success? <==> ComputedWeights().Success?
      ensures r.Success? && r.value.Some? ==> r.value.value.Shaped()
    {
      var index := GetDate();
      var w := ComputedWeights();
      if w.Failure? {
        return Failure(w.error);
      }
      var built := BuildFrame(index, w.value, key);
      if built.None? {
        return Success(None);
      }
      r := Success(Some(WithPortfolio(built.value)));
    }

    /** `set_portfolio_marketdata(key)`: a table over `get_date()`'s index
        holding each position's `key` column and that column times the
        position's weight, then the `portfolio` column. A zero total entry
        value raises; a column that cannot be aligned is caught, and the
        call then returns None and leaves the table as it was. */
    method SetPortfolioMarketData(key: ColumnName) returns (r: Result<Option<Frame>, PortfolioError>)
      requires Valid() && |entries| > 0 && Coherent() && DataReady()
      modifies this`weights, this`marketData
      ensures Coherent()
      ensures r == old(PortfolioTable(key))
      ensures r.Success? && r.value.Some? ==> marketData == r.value
      ensures !(r.Success? && r.value.Some?) ==> marketData == old(marketData)
      ensures r.Success? ==> weights == Some(ComputedWeights().value)
      ensures r.Failure? ==> weights == old(weights)
    {
      hide PortfolioTable, ComputedWeights, Assembled, WithPortfolio, Frame.Shaped, GetDate, Valid, Costs;
      r := Tabulate(key);
      if r.Success? {
        weights := Some(ComputedWeights().value);
        if r.value.Some? {
          marketData := r.value;
        }
      }
    }

    /** `get_portfolio_marketdata(key)`: the table when there is one,
        otherwise `set_portfolio_marketdata(key)` and then the table, which
        is missing (AttributeError) when that call could not build it. */
    method GetPortfolioMarketData(key: ColumnName) returns (r: Result<Frame, PortfolioError>)
      requires Valid() && |entries| > 0 && Coherent() && DataReady()
      modifies this`weights, this`marketData
      ensures Coherent()
      ensures old(marketData).Some? ==> r == Success(old(marketData).value) && marketData == old(marketData) && weights == old(weights)
      ensures old(marketData).None? ==>
                match old(PortfolioTable(key))
                case Failure(e) => r == Failure(e) && marketData == None
                case Success(None) => r == Failure(MarketDataUnset) && marketData == None
                case Success(Some(f)) => r == Success(f) && marketData == Some(f)
      ensures old(marketData).None? && old(PortfolioTable(key)).Success? ==> weights == Some(ComputedWeights().value)
      ensures old(marketData).None? && old(PortfolioTable(key)).Failure? ==> weights == old(weights)
    {
      if marketData.Some? {
        return Success(marketData.value);
      }
      var outcome := SetPortfolioMarketData(key);
      if outcome.Failure? {
        return Failure(outcome.error);
      }
      if marketData.None? {
        return Failure(MarketDataUnset);
      }
      r := Success(marketData.value);
    }

    /** `set_port_variance(confidence_interval)`: the weights (raising on a
        zero total), then the variance `w^T C w` over the table's columns
        whose names do not contain `port`, and the parametric value at risk,
        the variance times `confidence`. Without a table the call raises
        AttributeError. */
    method SetPortVariance(confidence: real) returns (r: Result<Num, PortfolioError>)
      requires Valid() && |entries| > 0 && Coherent()
      modifies this`weights, this`portVariance, this`parametricVaR
      ensures Coherent()
      ensures ComputedWeights().Success? ==> weights == Some(ComputedWeights().value)
      ensures ComputedWeights().Failure? ==> r == Failure(ZeroTotalValue)
      ensures ComputedWeights().Success? && marketData.None? ==> r == Failure(MarketDataUnset)
      ensures ComputedWeights().Success? && marketData.Some? ==> r == PortVarianceOf(marketData.value, ComputedWeights().value)
      ensures r.Success? ==> portVariance == Some(r.value) && parametricVaR == Some(r.value.Times(confidence))
      ensures r.Failure? ==> portVariance == old(portVariance) && parametricVaR == old(parametricVaR)
    {
      hide SortedByDate, StockData.Valid;
      var w := GetWeights();
      if w.Failure? {
        return Failure(w.error);
      }
      if marketData.None? {
        return Failure(MarketDataUnset);
      }
      r := PortVarianceOf(marketData.value, w.value);
      if r.Success? {
        portVariance := Some(r.value);
        parametricVaR := Some(r.value.Times(confidence));
      }
    }

    /** `get_port_variance()`: the variance and the value at risk when they
        were set, otherwise `set_port_variance` with the default confidence
        first. */
    method GetPortVariance(defaultConfidence: real) returns (r: Result<(Num, Num), PortfolioError>)
      requires Valid() && |entries| > 0 && Coherent()
      modifies this`weights, this`portVariance, this`parametricVaR
      ensures Coherent()
      ensures old(portVariance).Some? ==>
                && r == Success((old(portVariance).value, old(parametricVaR).value))
                && portVariance == old(portVariance) && parametricVaR == old(parametricVaR)
      ensures old(portVariance).None? && ComputedWeights().Failure? ==> r == Failure(ZeroTotalValue)
      ensures old(portVariance).None? && ComputedWeights().Success? && marketData.None? ==> r == Failure(MarketDataUnset)
      ensures old(portVariance).None? && ComputedWeights().Success? && marketData.Some? ==>
                match PortVarianceOf(marketData.value, ComputedWeights().value)
                case Success(v) => r == Success((v, v.Times(defaultConfidence)))
                case Failure(e) => r == Failure(e)
      ensures r.Success? ==> portVariance == Some(r.value.0) && parametricVaR == Some(r.value.1)
      ensures r.Failure? ==> portVariance == old(portVariance) && parametricVaR == old(parametricVaR)
      ensures old(portVariance).Some? ==> weights == old(weights)
      ensures old(portVariance).None? && ComputedWeights().Success? ==> weights == Some(ComputedWeights().value)
    {
      if portVariance.Some? {
        return Success((portVariance.value, parametricVaR.value));
      }
      var v := SetPortVariance(defaultConfidence);
      if v.Failure? {
        return Failure(v.error);
      }
      r := Success((portVariance.value, parametricVaR.value));
    }
  }

  // ---------------------------------------------------------------------
  // The parametric variance

  /** The first column of each of the first `n` pairs of a table: the
      positions' own columns when the table was assembled pairwise. */
  function OwnColumns(f: Frame, n: nat): (cols: seq<seq<Num>>)
    requires f.Shaped() && 2 * n <= |f.columns|
    ensures |cols| == n
    ensures forall k :: 0 <= k < n ==> cols[k] == f.columns[2 * k] && |cols[k]| == |f.index|
  {
    seq(n, k requires 0 <= k < n => f.columns[2 * k])
  }

  /** The positions of the columns `set_port_variance` keeps: those whose
      names do not contain `port`. */
  function RiskColumns(f: Frame): (cols: seq<nat>)
    requires f.Shaped()
    ensures forall k :: 0 <= k < |cols| ==> cols[k] < |f.names| && !Contains(f.names[cols[k]], "port")
  {
    Matching(f, "port", false)
  }

  /** The computation of `set_port_variance` on a table and the weights:
      the kept columns, each one's weight (KeyError when a name has none),
      their covariance matrix and `w^T C w`. */
  function PortVarianceOf(f: Frame, w: map<string, real>): (r: Result<Num, PortfolioError>)
    requires f.Shaped()
    ensures r.Failure? <==> exists k :: 0 <= k < |RiskColumns(f)| && f.names[RiskColumns(f)[k]] !in w
    ensures r.Failure? ==> r.error == UnknownColumn
  {
    var cols := RiskColumns(f);
    if exists k :: 0 <= k < |cols| && f.names[cols[k]] !in w then Failure(UnknownColumn)
    else
      var weights := seq(|cols|, k requires 0 <= k < |cols| => w[f.names[cols[k]]]);
      var data := seq(|cols|, k requires 0 <= k < |cols| => f.columns[cols[k]]);
      Success(QuadForm(weights, CovarianceMatrix(data, |f.index|)))
  }

  /** The table of a single position `name`, with its weighted column and
      the `portfolio` column added, has the variance of the position's
      column when the position weighs 1. */
  lemma SingleTableVariance(f: Frame, name: string, w: map<string, real>)
    requires f.Shaped() && f.names == [name, name + "_port_weighted"] && !Contains(name, "port")
    requires name in w && w[name] == 1.0
    ensures var g := WithPortfolio(f);
            PortVarianceOf(g, w) == Success(Covariance(g.columns[0], g.columns[0]))
  {
    var g := WithPortfolio(f);
    assert g.names == [name, name + "_port_weighted", "portfolio"];
    OnlyKeyColumnKept(name);
    VarianceOfOneColumn(g, w);
  }

  /** A table whose only column without `port` in its name comes first and
      carries weight 1 has, as `set_port_variance` computes it, the variance
      of that column. */
  lemma VarianceOfOneColumn(f: Frame, w: map<string, real>)
    requires f.Shaped() && |f.columns| > 0 && RiskColumns(f) == [0]
    requires f.names[0] in w && w[f.names[0]] == 1.0
    ensures PortVarianceOf(f, w) == Success(Covariance(f.columns[0], f.columns[0]))
  {
    var cols := RiskColumns(f);
    var column := f.columns[0];
    var weights := seq(|cols|, k requires 0 <= k < |cols| => w[f.names[cols[k]]]);
    assert weights == [1.0];
    var data := seq(|cols|, k requires 0 <= k < |cols| => f.columns[cols[k]]);
    assert data == [column];
    var c := CovarianceMatrix(data, |f.index|);
    assert c[0][0] == Covariance(column, column);
    assert c[0] == [Covariance(column, column)];
    assert c == [c[0]];
    QuadFormOfOne(c);
  }
}
