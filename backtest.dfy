/** The backtest: every position of an annotated series that has four
    candles before it and five after it is run through the entry rule, and
    each signal becomes one record labelled win or loss against the close
    four candles later. `get_candles_all_asset` runs it over every tradable
    instrument and concatenates the per-instrument result frames. */
module Backtest {
  import opened Candles
  import opened Bands
  import opened Signals
  import opened Assets

  /** One row of the results frame: `Ativo`, `Operação`, `Entrada`, `Tick`,
      `Média Ticks`, `Resultado`. */
  datatype Record = Record(asset: string, operation: Direction, entry: real, tick: nat,
                           meanTicks: real, result: Verdict)

  /** The loop `for i in range(4, len(df) - 5)` visits `i`. */
  predicate Visited(rows: seq<Row>, i: int)
  {
    4 <= i && i + 5 < |rows|
  }

  /** The exclusive end of that range, or 4 when the range is empty. */
  function End(rows: seq<Row>): (e: int)
    ensures e >= 4 && (e == 4 || e + 5 == |rows|)
  {
    if |rows| >= 9 then |rows| - 5 else 4
  }

  /** What one visited position contributes: a record when the rule fires. */
  function RecordAt(rows: seq<Row>, asset: string, i: int): Option<Record>
    requires Visited(rows, i)
  {
    var c := rows[i].candle;
    var ref := ReferenceTicks(rows, i);
    match Decide(rows[i], ref)
    case None => None
    case Some(d) =>
      var entry := EntryPrice(c, d);
      Some(Record(asset, d, entry, c.ticks, Mean(ref).value, Label(d, entry, rows[i + 4].candle.close)))
  }

  /** Records of the visited positions below `n`, in index order. */
  function RecordsBelow(rows: seq<Row>, asset: string, n: int): seq<Record>
    requires n <= 4 || n + 5 <= |rows|
    decreases n
  {
    if n <= 4 then []
    else
      RecordsBelow(rows, asset, n - 1)
      + match RecordAt(rows, asset, n - 1) case Some(rec) => [rec] case None => []
  }

  /** `backtest(df, asset_name)`. */
  function Records(rows: seq<Row>, asset: string): seq<Record>
  {
    RecordsBelow(rows, asset, End(rows))
  }

  /** The rule fires at position `i` (with the backtest's reference slice). */
  predicate Fires(rows: seq<Row>, i: int)
    requires 4 <= i < |rows|
  {
    Decide(rows[i], ReferenceTicks(rows, i)).Some?
  }

  /** Positions below `n` at which the rule fires, in increasing order. */
  function SignalsBelow(rows: seq<Row>, n: int): seq<int>
    requires n <= 4 || n + 5 <= |rows|
    decreases n
  {
    if n <= 4 then []
    else SignalsBelow(rows, n - 1) + if Fires(rows, n - 1) then [n - 1] else []
  }

  /** The signalling positions below `n` strictly increase, lie in `[4, n)`,
      and are exactly the positions there at which the rule fires. */
  lemma {:induction false} SignalsOrdered(rows: seq<Row>, n: int)
    requires n <= 4 || n + 5 <= |rows|
    ensures var idx := SignalsBelow(rows, n);
      && (forall k :: 0 <= k < |idx| ==> 4 <= idx[k] < n)
      && (forall k, l :: 0 <= k < l < |idx| ==> idx[k] < idx[l])
      && (forall i :: 4 <= i < n ==> (i in idx <==> Fires(rows, i)))
  {
    if n > 4 {
      SignalsOrdered(rows, n - 1);
      var prev := SignalsBelow(rows, n - 1);
      var idx := SignalsBelow(rows, n);
      var tail := if Fires(rows, n - 1) then [n - 1] else [];
      assert idx == prev + tail;
      forall i | 4 <= i < n
        ensures i in idx <==> Fires(rows, i)
      {
        assert i in idx <==> i in prev || i in tail;
      }
    }
  }

  /** One more position adds its record exactly when the rule fires there. */
  lemma RecordsStep(rows: seq<Row>, asset: string, n: int)
    requires 4 < n && n + 5 <= |rows|
    ensures Fires(rows, n - 1) <==> RecordAt(rows, asset, n - 1).Some?
    ensures RecordsBelow(rows, asset, n) == RecordsBelow(rows, asset, n - 1)
      + if Fires(rows, n - 1) then [RecordAt(rows, asset, n - 1).value] else []
  {
  }

  /** The records are, in order, the records of the signalling positions,
      and nothing else: record `k` is the one position `idx[k]` yields. */
  lemma {:induction false} RecordsAreSignalsInOrder(rows: seq<Row>, asset: string, n: int)
    requires n <= 4 || n + 5 <= |rows|
    ensures var recs, idx := RecordsBelow(rows, asset, n), SignalsBelow(rows, n);
      && |recs| == |idx|
      && (forall k :: 0 <= k < |idx| ==>
            Visited(rows, idx[k]) && RecordAt(rows, asset, idx[k]) == Some(recs[k]))
  {
    SignalsOrdered(rows, n);
    if n > 4 {
      RecordsAreSignalsInOrder(rows, asset, n - 1);
      RecordsStep(rows, asset, n);
      var recs, idx := RecordsBelow(rows, asset, n), SignalsBelow(rows, n);
      var recs', idx' := RecordsBelow(rows, asset, n - 1), SignalsBelow(rows, n - 1);
      if Fires(rows, n - 1) {
        assert recs == recs' + [RecordAt(rows, asset, n - 1).value] && idx == idx' + [n - 1];
        forall k | 0 <= k < |idx|
          ensures Visited(rows, idx[k]) && RecordAt(rows, asset, idx[k]) == Some(recs[k])
        {
          if k < |idx'| {
            assert idx[k] == idx'[k] && recs[k] == recs'[k];
          }
        }
      } else {
        assert recs == recs' && idx == idx';
      }
    }
  }

  /** There are at most `max(0, len - 9)` records. */
  lemma {:induction false} RecordCountBound(rows: seq<Row>, asset: string, n: int)
    requires n <= 4 || n + 5 <= |rows|
    ensures |RecordsBelow(rows, asset, n)| <= if n <= 4 then 0 else n - 4
  {
    if n > 4 {
      RecordCountBound(rows, asset, n - 1);
    }
  }

  /** Every record names the instrument it was run for. */
  lemma {:induction false} RecordsNameAsset(rows: seq<Row>, asset: string, n: int)
    requires n <= 4 || n + 5 <= |rows|
    ensures forall r :: r in RecordsBelow(rows, asset, n) ==> r.asset == asset
  {
    if n > 4 {
      RecordsNameAsset(rows, asset, n - 1);
    }
  }

  /** The record of a signalling position: Buy exactly under the Buy rule
      with entry `low - 0.00005`, Sell exactly under the Sell rule with entry
      `high + 0.00005`; the tick count of the trigger, the mean of the ticks
      of candles `i-4`, `i-3`, `i-2`, and the verdict against the close at
      `i+4`. Every position read, `i-4` to `i+4`, is inside the series. */
  lemma RecordContents(rows: seq<Row>, asset: string, i: int)
    requires Visited(rows, i)
    ensures 0 <= i - 4 && i + 4 < |rows| - 1
    ensures var r, c, later := rows[i], rows[i].candle, rows[i + 4].candle.close;
      var a, b, d := rows[i - 4].candle.ticks, rows[i - 3].candle.ticks, rows[i - 2].candle.ticks;
      var buy := r.lowerBand.Some? && c.low <= r.lowerBand.value && c.close > c.open
                 && c.close > r.lowerBand.value && 3 * c.ticks > a + b + d;
      var sell := r.upperBand.Some? && c.high >= r.upperBand.value && c.close < c.open
                  && c.close < r.upperBand.value && 3 * c.ticks > a + b + d;
      match RecordAt(rows, asset, i)
      case None => !buy && !sell
      case Some(rec) =>
        && rec.asset == asset && rec.tick == c.ticks
        && rec.meanTicks == (a + b + d) as real / 3.0
        && (rec.operation == Buy <==> buy)
        && (rec.operation == Sell <==> sell)
        && (rec.operation == Buy ==> rec.entry == c.low - 0.00005 && (rec.result == Win <==> later > rec.entry))
        && (rec.operation == Sell ==> rec.entry == c.high + 0.00005 && (rec.result == Win <==> later < rec.entry))
  {
    var c := rows[i].candle;
    var a, b, d := rows[i - 4].candle.ticks, rows[i - 3].candle.ticks, rows[i - 2].candle.ticks;
    ReferenceSkipsPreviousCandle(rows, i);
    VolumeTestIsIntegral(c.ticks, a, b, d);
    Sum3(a, b, d);
    DecisionCharacterised(rows[i], ReferenceTicks(rows, i));
  }

  /** `backtest(df, asset_name)`: the loop over `range(4, len(df) - 5)`
      appending one record per signal. */
  method RunBacktest(rows: seq<Row>, asset: string) returns (results: seq<Record>)
    ensures results == Records(rows, asset)
    ensures |results| <= if |rows| >= 9 then |rows| - 9 else 0
    ensures forall r :: r in results ==> r.asset == asset
  {
    results := [];
    var i := 4;
    while i < |rows| - 5
      invariant 4 <= i <= End(rows)
      invariant results == RecordsBelow(rows, asset, i)
    {
      var candle := rows[i];
      var tickVolumes := ReferenceTicks(rows, i);
      var mean := Mean(tickVolumes).value;
      if BuyRule(candle, tickVolumes) {
        var buyPrice := candle.candle.low - SLIPPAGE;
        var result := if rows[i + 4].candle.close > buyPrice then Win else Loss;
        results := results + [Record(asset, Buy, buyPrice, candle.candle.ticks, mean, result)];
      } else if SellRule(candle, tickVolumes) {
        var sellPrice := candle.candle.high + SLIPPAGE;
        var result := if rows[i + 4].candle.close < sellPrice then Win else Loss;
        results := results + [Record(asset, Sell, sellPrice, candle.candle.ticks, mean, result)];
      }
      i := i + 1;
    }
    RecordCountBound(rows, asset, End(rows));
    RecordsNameAsset(rows, asset, End(rows));
  }

  /** Positions whose bands are undefined contribute nothing. */
  lemma {:induction false} NoBandsNoRecords(rows: seq<Row>, asset: string, n: int)
    requires n <= 4 || n + 5 <= |rows|
    requires forall i :: 4 <= i < n ==> rows[i].upperBand.None? && rows[i].lowerBand.None?
    ensures RecordsBelow(rows, asset, n) == []
  {
    if n > 4 {
      NoBandsNoRecords(rows, asset, n - 1);
      NoBandsNoSignal(rows[n - 1], ReferenceTicks(rows, n - 1));
    }
  }

  /** A position with fewer than `window` closes up to it never yields a
      record. */
  lemma EarlyPositionNeverRecords(candles: seq<Candle>, stdev: seq<real>, window: nat, numStd: real,
                                  asset: string, i: int)
    requires 2 <= window && |stdev| == |candles|
    requires Visited(Annotate(candles, stdev, window, numStd), i) && i + 1 < window
    ensures RecordAt(Annotate(candles, stdev, window, numStd), asset, i) == None
  {
    var rows := Annotate(candles, stdev, window, numStd);
    BandGeometry(candles, stdev, window, numStd, i);
    NoBandsNoSignal(rows[i], ReferenceTicks(rows, i));
  }

  /** With the default 20-candle window the first record needs 25 candles:
      the first position with bands is 19 and the loop stops at `len - 6`. */
  lemma ShortSeriesHasNoRecords(candles: seq<Candle>, stdev: seq<real>, asset: string)
    requires |stdev| == |candles| && |candles| < WINDOW + 5
    ensures Records(Annotate(candles, stdev, WINDOW, NUM_STD), asset) == []
  {
    var rows := Annotate(candles, stdev, WINDOW, NUM_STD);
    forall i | 4 <= i < End(rows)
      ensures rows[i].upperBand.None? && rows[i].lowerBand.None?
    {
      BandGeometry(candles, stdev, WINDOW, NUM_STD, i);
    }
    NoBandsNoRecords(rows, asset, End(rows));
  }

  /** The converse: from 25 candles on, position 19 is visited and has
      bands, so the rule is evaluated there. Position `len - 5`, whose candle
      four steps later exists, is never visited. */
  lemma FirstBandedPositionVisited(candles: seq<Candle>, stdev: seq<real>)
    requires |stdev| == |candles| && |candles| >= WINDOW + 5
    ensures var rows := Annotate(candles, stdev, WINDOW, NUM_STD);
      && Visited(rows, WINDOW - 1)
      && rows[WINDOW - 1].lowerBand.Some? && rows[WINDOW - 1].upperBand.Some?
      && !Visited(rows, |rows| - 5)
  {
    BandGeometry(candles, stdev, WINDOW, NUM_STD, WINDOW - 1);
  }

  /** The backtest result frame of one instrument. */
  function AssetRecords(a: Asset): seq<Record>
    requires Aligned(a)
  {
    Records(Annotate(a.candles, a.stdev, WINDOW, NUM_STD), a.name)
  }

  /** Why `get_candles_all_asset` produced no results: an instrument came
      back with no candles (pandas raises on the missing `close` column), or
      no instrument passed the filter (`pd.concat` of an empty list raises). */
  datatype BacktestError = MissingClose(code: string) | NothingToConcatenate

  /** The result frames collected for the instruments of `universe`, in key
      order, or the error that stopped the collection. */
  function Frames(universe: seq<Asset>): Result<seq<seq<Record>>, BacktestError>
    requires forall a :: a in universe ==> Aligned(a)
  {
    if universe == [] then Ok([])
    else
      var a := universe[|universe| - 1];
      match Frames(universe[..|universe| - 1])
      case Err(e) => Err(e)
      case Ok(fs) =>
        if !Tradable(a) then Ok(fs)
        else if |a.candles| == 0 then Err(MissingClose(a.code))
        else Ok(fs + [AssetRecords(a)])
  }

  /** `pd.concat(all_results)`. */
  function Concat(frames: seq<seq<Record>>): seq<Record>
  {
    if frames == [] then [] else Concat(frames[..|frames| - 1]) + frames[|frames| - 1]
  }

  /** `final_results_df` of `get_candles_all_asset`. */
  function BacktestAllSpec(universe: seq<Asset>): Result<seq<Record>, BacktestError>
    requires forall a :: a in universe ==> Aligned(a)
  {
    match Frames(universe)
    case Err(e) => Err(e)
    case Ok(fs) => if fs == [] then Err(NothingToConcatenate) else Ok(Concat(fs))
  }

  /** Once the collection has failed on a prefix, the whole run fails the same
      way. */
  lemma {:induction false} ErrorPersists(universe: seq<Asset>, k: nat)
    requires forall a :: a in universe ==> Aligned(a)
    requires k <= |universe| && Frames(universe[..k]).Err?
    ensures Frames(universe) == Frames(universe[..k])
    decreases |universe| - k
  {
    if k < |universe| {
      assert universe[..k + 1][..k] == universe[..k];
      ErrorPersists(universe, k + 1);
    } else {
      assert universe[..k] == universe;
    }
  }

  /** The instruments of `universe` that pass the filter, in key order. */
  function TradableOnly(universe: seq<Asset>): (t: seq<Asset>)
    ensures forall a :: a in t ==> a in universe && Tradable(a)
  {
    if universe == [] then []
    else
      var a := universe[|universe| - 1];
      TradableOnly(universe[..|universe| - 1]) + if Tradable(a) then [a] else []
  }

  /** The records of each instrument of `ts`, one instrument after another. */
  function AllRecords(ts: seq<Asset>): seq<Record>
    requires forall a :: a in ts ==> Aligned(a)
  {
    if ts == [] then [] else AllRecords(ts[..|ts| - 1]) + AssetRecords(ts[|ts| - 1])
  }

  /** The collection fails exactly when some tradable instrument has no
      candles, and otherwise holds one frame per tradable instrument: the
      `j`-th frame is the backtest of the `j`-th tradable instrument in key
      order. */
  lemma {:induction false} FramesFollowFilter(universe: seq<Asset>)
    requires forall a :: a in universe ==> Aligned(a)
    ensures Frames(universe).Err? <==> exists a :: a in universe && Tradable(a) && |a.candles| == 0
    ensures Frames(universe).Ok? ==>
      var fs, ts := Frames(universe).value, TradableOnly(universe);
      && |fs| == |ts|
      && (forall j :: 0 <= j < |ts| ==> fs[j] == AssetRecords(ts[j]))
      && (fs == [] <==> forall a :: a in universe ==> !Tradable(a))
      && (forall f :: f in fs ==> exists a :: a in universe && Tradable(a) && f == AssetRecords(a))
  {
    if universe != [] {
      var init := universe[..|universe| - 1];
      var a := universe[|universe| - 1];
      assert universe == init + [a];
      FramesFollowFilter(init);
      if Frames(universe).Ok? {
        var fs, ts := Frames(universe).value, TradableOnly(universe);
        var fs', ts' := Frames(init).value, TradableOnly(init);
        forall j | 0 <= j < |ts|
          ensures fs[j] == AssetRecords(ts[j])
        {
          if j < |ts'| {
            assert fs[j] == fs'[j] && ts[j] == ts'[j];
          }
        }
      }
    }
  }

  /** Concatenating one frame per instrument gives their records one
      instrument after another. */
  lemma {:induction false} ConcatAllRecords(fs: seq<seq<Record>>, ts: seq<Asset>)
    requires forall a :: a in ts ==> Aligned(a)
    requires |fs| == |ts| && forall j :: 0 <= j < |ts| ==> fs[j] == AssetRecords(ts[j])
    ensures Concat(fs) == AllRecords(ts)
  {
    if fs != [] {
      var n := |fs| - 1;
      assert forall a :: a in ts[..n] ==> a in ts;
      ConcatAllRecords(fs[..n], ts[..n]);
    }
  }

  /** The final frame: an error when no instrument passed the filter or one
      came back empty; otherwise the records of every tradable instrument,
      in key order, and nothing else. */
  lemma BacktestAllOutcome(universe: seq<Asset>)
    requires forall a :: a in universe ==> Aligned(a)
    ensures BacktestAllSpec(universe) == Err(NothingToConcatenate)
            <==> forall a :: a in universe ==> !Tradable(a)
    ensures BacktestAllSpec(universe).Err? ==>
            BacktestAllSpec(universe) == Err(NothingToConcatenate)
            || exists a :: a in universe && Tradable(a) && |a.candles| == 0
    ensures BacktestAllSpec(universe).Ok? ==>
            BacktestAllSpec(universe).value == AllRecords(TradableOnly(universe))
    ensures BacktestAllSpec(universe).Ok? ==>
            forall r :: r in BacktestAllSpec(universe).value ==>
              exists a :: a in universe && Tradable(a) && r.asset == a.name
  {
    FramesFollowFilter(universe);
    if Frames(universe).Ok? {
      var fs := Frames(universe).value;
      ConcatAllRecords(fs, TradableOnly(universe));
      ConcatMembers(fs);
      forall r | r in Concat(fs)
        ensures exists a :: a in universe && Tradable(a) && r.asset == a.name
      {
        var f :| f in fs && r in f;
        var a :| a in universe && Tradable(a) && f == AssetRecords(a);
        RecordsNameAsset(Annotate(a.candles, a.stdev, WINDOW, NUM_STD), a.name,
                         End(Annotate(a.candles, a.stdev, WINDOW, NUM_STD)));
      }
    } else {
      MissingCloseNotNothing(universe);
    }
  }

  /** An element of the concatenation comes from one of the frames. */
  lemma {:induction false} ConcatMembers(frames: seq<seq<Record>>)
    ensures forall r :: r in Concat(frames) ==> exists f :: f in frames && r in f
  {
    if frames != [] {
      ConcatMembers(frames[..|frames| - 1]);
    }
  }

  /** The collection only ever fails with `MissingClose`. */
  lemma {:induction false} MissingCloseNotNothing(universe: seq<Asset>)
    requires forall a :: a in universe ==> Aligned(a)
    ensures Frames(universe).Err? ==> Frames(universe).error.MissingClose?
  {
    if universe != [] {
      MissingCloseNotNothing(universe[..|universe| - 1]);
    }
  }

  /** `get_candles_all_asset`: for each instrument in key order, skip it
      unless it passes the filter, build its frame, add the bands, backtest
      it and keep the result frame; then concatenate. */
  method BacktestAll(universe: seq<Asset>) returns (r: Result<seq<Record>, BacktestError>)
    requires forall a :: a in universe ==> Aligned(a)
    ensures r == BacktestAllSpec(universe)
  {
    var allResults: seq<seq<Record>> := [];
    var k := 0;
    while k < |universe|
      invariant 0 <= k <= |universe|
      invariant Frames(universe[..k]) == Ok(allResults)
    {
      var asset := universe[k];
      assert asset in universe && universe[..k + 1] == universe[..k] + [asset];
      if Tradable(asset) {
        var ratesFrame := new Frame(asset.candles);
        var ok := ratesFrame.CalculateBands(asset.stdev, WINDOW, NUM_STD);
        if !ok {
          ErrorPersists(universe, k + 1);
          return Err(MissingClose(asset.code));
        }
        var results := RunBacktest(ratesFrame.Rows(), asset.name);
        allResults := allResults + [results];
      }
      k := k + 1;
    }
    assert universe[..k] == universe;
    if allResults == [] {
      return Err(NothingToConcatenate);
    }
    r := Ok(Concat(allResults));
  }
}
