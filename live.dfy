/** Live trading. main.py checks the wall clock and, near each minute
    boundary, scans the tradable instruments in key order, evaluates the
    entry rule on each one's latest candle, and trades the first instrument
    that signals, then stops the scan. testes.py runs the same per-instrument
    check in an endless loop per instrument; one iteration of that loop is
    modelled. The clock, the venue and the concurrency are outside the
    model: the second of the minute and the venue's answers are inputs. */
module Live {
  import opened Candles
  import opened Bands
  import opened Signals
  import opened Assets

  /** The venue's trade directions: a Buy signal is a "call", a Sell a "put". */
  datatype Action = Call | Put

  function ActionOf(d: Direction): Action
  {
    match d
    case Buy => Call
    case Sell => Put
  }

  /** The stake of every trade (`amount=55`). */
  const AMOUNT: nat := 55

  /** A `client.buy(amount, asset_name, direction, duration)` request. */
  datatype Order = Order(amount: nat, asset: string, action: Action, duration: int)

  /** Python's `round(n / d)` for a positive integer divisor: the nearest
      integer, ties going to the even one. */
  function PyRound(n: int, d: int): (q: int)
    requires d > 0
    ensures -d <= 2 * (n - q * d) <= d
  {
    var f, rem := n / d, n % d;
    if 2 * rem < d then f
    else if 2 * rem > d then f + 1
    else if f % 2 == 0 then f else f + 1
  }

  /** `round((60 - segundo_atual) / 5, None) * 5`: the trade lasts to about
      the next minute boundary, in whole 5-second steps. */
  function Duration(second: int): int
  {
    PyRound(60 - second, 5) * 5
  }

  /** Distance between two integers. */
  function Gap(x: int, y: int): nat
  {
    if x >= y then x - y else y - x
  }

  /** The duration is a multiple of 5 nearest to `60 - second`, at most 2
      away from it; for a clock second (0 to 59) it lies in [0, 60]. */
  lemma DurationIsNearestMultiple(second: int)
    ensures Duration(second) % 5 == 0
    ensures Gap(Duration(second), 60 - second) <= 2
    ensures forall m :: m % 5 == 0 ==> Gap(Duration(second), 60 - second) <= Gap(m, 60 - second)
    ensures 0 <= second <= 59 ==> 0 <= Duration(second) <= 60
  {
    var q := PyRound(60 - second, 5);
    var t := 60 - second;
    assert -5 <= 2 * (t - 5 * q) <= 5;
    forall m | m % 5 == 0
      ensures Gap(Duration(second), t) <= Gap(m, t)
    {
      var p := m / 5;
      assert m == 5 * p;
      if p != q {
        assert p >= q + 1 || p <= q - 1;
      }
    }
    if 0 <= second <= 59 {
      assert 1 <= t <= 60;
    }
  }

  /** Near the boundary the duration collapses: seconds 58 and 59 give a
      0-second trade, second 0 a full minute. */
  lemma BoundaryDurations()
    ensures Duration(58) == 0 && Duration(59) == 0
    ensures Duration(57) == 5 && Duration(0) == 60
  {
  }

  /** `second in [50, 51, 52, 53, 54, 55, 56, 57, 58, 59, 00]`. */
  predicate InScanWindow(second: int)
  {
    second in [50, 51, 52, 53, 54, 55, 56, 57, 58, 59, 0]
  }

  /** The gate admits exactly the last ten seconds of a minute and second 0. */
  lemma ScanWindowIff(second: int)
    ensures InScanWindow(second) <==> second == 0 || 50 <= second <= 59
  {
  }

  /** `iloc[-5:-1]['ticks'][:3]` on the annotated frame: the first three of
      the (up to) four candles before the last one. */
  function LatestReference(rows: seq<Row>): (t: seq<nat>)
    requires |rows| > 0
    ensures |t| == if |rows| >= 4 then 3 else |rows| - 1
  {
    var lo := if |rows| >= 5 then |rows| - 5 else 0;
    var prev := rows[lo .. |rows| - 1];
    var ticks := Ticks(seq(|prev|, k requires 0 <= k < |prev| => prev[k].candle));
    if |ticks| >= 3 then ticks[..3] else ticks
  }

  /** The entry rule on the latest candle (`iloc[-1]`). */
  function LatestDecision(rows: seq<Row>): Option<Direction>
    requires |rows| > 0
  {
    Decide(rows[|rows| - 1], LatestReference(rows))
  }

  /** On a frame of five or more candles the live check reads ticks at
      `len-5`, `len-4`, `len-3` and decides exactly as the backtest rule
      would at position `len-1`. */
  lemma LiveMatchesBacktestRule(rows: seq<Row>)
    requires |rows| >= 5
    ensures LatestReference(rows)
            == [rows[|rows| - 5].candle.ticks, rows[|rows| - 4].candle.ticks, rows[|rows| - 3].candle.ticks]
    ensures LatestDecision(rows) == Decide(rows[|rows| - 1], ReferenceTicks(rows, |rows| - 1))
  {
    ReferenceSkipsPreviousCandle(rows, |rows| - 1);
  }

  /** With fewer than 20 candles the latest row has no bands, so the live
      check never signals. */
  lemma ShortFrameNeverSignals(candles: seq<Candle>, stdev: seq<real>)
    requires |stdev| == |candles| && 0 < |candles| < WINDOW
    ensures LatestDecision(Annotate(candles, stdev, WINDOW, NUM_STD)) == None
  {
    var rows := Annotate(candles, stdev, WINDOW, NUM_STD);
    BandGeometry(candles, stdev, WINDOW, NUM_STD, |rows| - 1);
    NoBandsNoSignal(rows[|rows| - 1], LatestReference(rows));
  }

  /** The decision for one instrument from its fetched candles. */
  function AssetDecision(a: Asset): Option<Direction>
    requires Aligned(a) && |a.candles| > 0
  {
    LatestDecision(Annotate(a.candles, a.stdev, WINDOW, NUM_STD))
  }

  /** `buy_and_check_win`: the instrument is re-queried and, only if it
      reports open, one order goes out in the signal's direction, under the
      name the re-query returned; the
      settlement wait and the logging are outside the model. */
  function BuyAndCheckWin(a: Asset, d: Direction, second: int): Option<Order>
  {
    if a.openOnRecheck then Some(Order(AMOUNT, a.nameOnRecheck, ActionOf(d), Duration(second))) else None
  }

  /** An order is placed only for an instrument that reports open on the
      re-query, under the name that re-query gave, in the signal's
      direction, and never lasts more than a minute. */
  lemma TradeOnlyWhenOpen(a: Asset, d: Direction, second: int)
    requires 0 <= second <= 59
    ensures BuyAndCheckWin(a, d, second).Some? <==> a.openOnRecheck
    ensures BuyAndCheckWin(a, d, second).Some? ==>
      var o := BuyAndCheckWin(a, d, second).value;
      && o.asset == a.nameOnRecheck && o.amount == AMOUNT
      && (o.action == Call <==> d == Buy) && (o.action == Put <==> d == Sell)
      && 0 <= o.duration <= 60 && o.duration % 5 == 0
  {
    DurationIsNearestMultiple(second);
  }

  /** How a `monitor_assets` scan ended: at the first instrument that
      signalled (with the order, if it was still open), with no signal
      anywhere, or at an instrument whose empty candle list made pandas
      raise, which ends the program. */
  datatype ScanResult = Signalled(index: nat, direction: Direction, order: Option<Order>)
                      | NoSignal
                      | Crashed(index: nat)

  /** An instrument the scan moves past: filtered out, or fetched and quiet. */
  predicate Passed(a: Asset)
    requires Aligned(a)
  {
    !Tradable(a) || (|a.candles| > 0 && AssetDecision(a) == None)
  }

  /** The scan from key position `k` on. */
  function ScanFrom(universe: seq<Asset>, k: nat, second: int): ScanResult
    requires k <= |universe| && forall a :: a in universe ==> Aligned(a)
    decreases |universe| - k
  {
    if k == |universe| then NoSignal
    else
      var a := universe[k];
      if !Tradable(a) then ScanFrom(universe, k + 1, second)
      else if |a.candles| == 0 then Crashed(k)
      else match AssetDecision(a)
        case Some(d) => Signalled(k, d, BuyAndCheckWin(a, d, second))
        case None => ScanFrom(universe, k + 1, second)
  }

  /** `monitor_assets`: instruments in key order; the filter first; then
      the frame, the bands and the rule on the latest candle; on a Buy a
      "call", on a Sell a "put", and `break` after the first signal whether
      or not the order went out. */
  method MonitorAssets(universe: seq<Asset>, second: int) returns (res: ScanResult)
    requires forall a :: a in universe ==> Aligned(a)
    ensures res == ScanFrom(universe, 0, second)
    ensures res.Signalled? ==>
      && res.index < |universe| && Tradable(universe[res.index])
      && |universe[res.index].candles| > 0
      && AssetDecision(universe[res.index]) == Some(res.direction)
      && res.order == BuyAndCheckWin(universe[res.index], res.direction, second)
    ensures res.Crashed? ==>
      res.index < |universe| && Tradable(universe[res.index]) && |universe[res.index].candles| == 0
    ensures var stop := if res.NoSignal? then |universe| else res.index;
      forall j :: 0 <= j < stop ==> Passed(universe[j])
  {
    var k := 0;
    while k < |universe|
      invariant 0 <= k <= |universe|
      invariant ScanFrom(universe, k, second) == ScanFrom(universe, 0, second)
      invariant forall j :: 0 <= j < k ==> Passed(universe[j])
    {
      var asset := universe[k];
      assert asset in universe;
      if Tradable(asset) {
        var ratesFrame := new Frame(asset.candles);
        var ok := ratesFrame.CalculateBands(asset.stdev, WINDOW, NUM_STD);
        if !ok {
          return Crashed(k);
        }
        var rows := ratesFrame.Rows();
        var latestCandle := rows[|rows| - 1];
        var tickVolumes := LatestReference(rows);
        if BuyRule(latestCandle, tickVolumes) {
          return Signalled(k, Buy, BuyAndCheckWin(asset, Buy, second));
        } else if SellRule(latestCandle, tickVolumes) {
          return Signalled(k, Sell, BuyAndCheckWin(asset, Sell, second));
        }
      }
      k := k + 1;
    }
    return NoSignal;
  }

  /** One pass of main.py's `while True` loop: scan only when the clock
      second `gateSecond` is inside the window; `tradeSecond` is the clock
      read later inside `buy_and_check_win`. */
  method MainTick(universe: seq<Asset>, gateSecond: int, tradeSecond: int) returns (res: Option<ScanResult>)
    requires forall a :: a in universe ==> Aligned(a)
    ensures res.Some? <==> gateSecond == 0 || 50 <= gateSecond <= 59
    ensures res.Some? ==> res.value == ScanFrom(universe, 0, tradeSecond)
  {
    ScanWindowIff(gateSecond);
    if InScanWindow(gateSecond) {
      var scan := MonitorAssets(universe, tradeSecond);
      return Some(scan);
    }
    return None;
  }

  /** One iteration of testes.py's `monitor_single_asset`: the filter, the
      frame, the rule on the latest candle, and at most one order. A failure
      inside the iteration (an empty candle list) is caught and ends it with
      no order. */
  function MonitorStep(a: Asset, second: int): Option<Order>
    requires Aligned(a)
  {
    if Tradable(a) && |a.candles| > 0 then
      match AssetDecision(a)
      case Some(d) => BuyAndCheckWin(a, d, second)
      case None => None
    else None
  }

  /** The per-instrument loop of testes.py trades exactly what main.py's
      scan would trade on a universe of that one instrument, except that it
      swallows the failure main.py dies of. An order needs the filter, a
      signal and an open re-query, and it follows the signal's direction. */
  lemma StepAgreesWithScan(a: Asset, second: int)
    requires Aligned(a) && 0 <= second <= 59
    ensures MonitorStep(a, second)
            == match ScanFrom([a], 0, second)
               case Signalled(_, _, o) => o
               case NoSignal => None
               case Crashed(_) => None
    ensures MonitorStep(a, second).Some? <==>
      Tradable(a) && |a.candles| > 0 && AssetDecision(a).Some? && a.openOnRecheck
    ensures MonitorStep(a, second).Some? ==>
      && MonitorStep(a, second).value.action == ActionOf(AssetDecision(a).value)
      && 0 <= MonitorStep(a, second).value.duration <= 60
  {
    assert ScanFrom([a], 1, second) == NoSignal;
    DurationIsNearestMultiple(second);
  }
}
