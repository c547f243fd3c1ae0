# Bollinger-band reversal signals: a Dafny model

This project models the signal engine of a small trading bot for an
OTC binary-options venue. The bot has three scripts, and each carries its own
copy of the same logic:

- `backtest.py` replays an hour of one-minute candles for every tradable
  instrument. It labels each historical signal win or loss against the close
  four candles later.
- `main.py` scans the instruments near each minute boundary. It trades the
  first one that signals and then stops the scan.
- `testes.py` watches every instrument in its own endless loop and trades
  whenever one signals.

The signal is a band reversal on one candle. The candle pierces a Bollinger
band: a 20-candle SMA of the close, ± 2 standard deviations. It then closes
back inside the band, with a body in the reversal direction. It also trades
more ticks than the mean of a reference slice of earlier candles.

Modules, one per component (shared logic is defined once):

- `Candles` (candles.dfy): candles, `Option`/`Result`, sums.
- `Bands` (bands.dfy): `calculate_bands`. A `Frame` class gets its band
  columns added in place, and the pure function `Annotate` specifies them.
- `Signals` (signals.dfy): the entry rule (`if`/`elif`), the entry price, the
  win/loss label and the reference tick slice.
- `Assets` (assets.dfy): the instrument filter (open, `/`, no `BRL`, `OTC`).
- `Backtest` (backtest.py's `backtest` loop and `get_candles_all_asset`).
- `Live` (main.py's `monitor_assets`, `buy_and_check_win` and clock gate; one
  iteration of testes.py's `monitor_single_asset`).

Modelling choices:

- Prices are exact reals, so `low - 0.00005` is exact.
- A pandas NaN is `None`. Every comparison with it is false.
- The rolling standard deviation needs a square root. Its column is therefore
  an input, one value per candle, and only positions with a full window use it.
- Everything the venue answers becomes an `Asset` value: the name, the symbol,
  the open flag, the candles, and the name and open flag from the forced
  re-query in `buy_and_check_win`. The two queries are separate calls, so the
  order is placed under the re-query's name, not the first query's.
- The standard deviation column is non-negative, one value per candle, as
  pandas computes it (`Aligned`).
- The clock second is a parameter.
- The Python code raises when an instrument returns no candles: the frame has
  no `close` column. The model turns that into an explicit error outcome:
  - in `backtest.py` and `main.py` it ends the run;
  - in `testes.py` it is caught and the iteration places no order.
- `pd.concat` of an empty list raises. `BacktestAll` therefore returns an
  error when no instrument passes the filter.

What the code does, where its own comments or names suggest otherwise (the
model follows the code):

- The backtest loop is `range(4, len(df) - 5)` (backtest.py:30), so the last
  position it visits is `len - 6`; the comment on that line speaks of a `-1`
  margin. Position `len - 5`, whose candle four steps later exists, is never
  evaluated (`FirstBandedPositionVisited`).
- With the 20-candle window the first record therefore needs exactly 25
  candles: fewer give none (`ShortSeriesHasNoRecords`), and from 25 on
  position 19 is visited with its bands defined (`FirstBandedPositionVisited`).
- The reference ticks are `df.iloc[i-4:i]['ticks'][:3]` (backtest.py:32-41),
  candles `i-4..i-2`. The comment at backtest.py:35 calls them the last
  three ticks, but candle `i-1` is skipped.
- `calculate_bands` adds columns to the frame in place (backtest.py:12-20)
  and returns that same frame.
- No minimum length is enforced: a short series simply has no bands.

## Model

The definitions that transcribe the source carry no row of their own. Each
is stated about through the rows that name it:

- `Signals.Decide`, the `if`/`elif` of backtest.py:38-64, main.py:74-88 and
  testes.py:64-73: `Signals.DecisionCharacterised`, `Signals.NoBandsNoSignal`
  and `Signals.BullishReversalScenario`.
- `Assets.Tradable`, the filter of backtest.py:160, main.py:58 and
  testes.py:51: `Assets.FilterCharacterised` and the three filter lemmas
  below it.
- `Backtest.Records` (and `RecordsBelow`, `RecordAt`), backtest.py:25-85:
  `Backtest.RecordContents`, `Backtest.RecordsAreSignalsInOrder`,
  `Backtest.RecordCountBound` and `Backtest.RunBacktest`.
- `Live.Duration`, main.py:31-33: `Live.DurationIsNearestMultiple` and
  `Live.BoundaryDurations`.
- `Live.InScanWindow`, main.py:105: `Live.ScanWindowIff`.
- `Live.BuyAndCheckWin`, main.py:23-46: `Live.TradeOnlyWhenOpen`.
- `Live.MonitorStep`, testes.py:48-77: `Live.StepAgreesWithScan`.

| member | source | states |
|---|---|---|
| `Bands.RollingMean` | backtest.py:14 | the rolling SMA at position `i` exists exactly when `i + 1 >= window` |
| `Bands.Annotate` | main.py:14-19 | the annotated frame keeps every candle, in order, one row each |
| `Bands.Frame.constructor` | backtest.py:167 | a frame built from candles holds them and has no band columns yet |
| `Bands.Frame.CalculateBands` | backtest.py:12-20 | adds the four columns in place, leaving the candles unchanged; the new rows equal `Annotate`; raises (ok = false, nothing changed) on a frame with no candles |
| `Bands.BandGeometry` | testes.py:11-16 | bands exist exactly from the window-th candle; upper − lower = 2·num_std·std; the bands are symmetric about the SMA; lower ≤ SMA ≤ upper for non-negative num_std and std |
| `Bands.SmaWithinWindow` | main.py:15 | the SMA lies within any bounds that hold for every close of its trailing window |
| `Bands.BandedCount` | backtest.py:14-19 | a series of n ≥ window candles has exactly n − window + 1 rows with bands, and a shorter one has none |
| `Signals.ReferenceSkipsPreviousCandle` | backtest.py:33-35 | the reference ticks are those of candles i−4, i−3 and i−2; candle i−1 is never read |
| `Signals.VolumeTestIsIntegral` | backtest.py:41 | with three reference candles, `ticks > mean(a, b, c)` is `3·ticks > a + b + c` |
| `Signals.DecisionCharacterised` | backtest.py:38-64 | Buy iff low ≤ lower band ∧ close > open ∧ close > lower band ∧ ticks > mean; Sell iff the mirror conditions hold; the two never both hold; a signal needs a non-empty candle body and a non-empty reference |
| `Signals.NoBandsNoSignal` | testes.py:64-73 | a row without bands (NaN) never signals |
| `Signals.BullishReversalScenario` | backtest.py:38-48 | the worked bullish scenario is a Buy at 0.98995; it wins against a later close of 0.99200, loses against 0.98900, and gives no signal once close < open |
| `Assets.ContainsIff` | backtest.py:160 | Python's substring test `p in s` holds exactly when some position of s starts a copy of p |
| `Assets.FilterCharacterised` | backtest.py:160 | an instrument passes the filter iff it is open, its symbol has a `/` and an `OTC` at some position, and `BRL` at none |
| `Assets.OpenOtcPairPasses` | main.py:58 | every symbol with a `/` and an `OTC` and no `BRL` passes the filter exactly when the instrument is open |
| `Assets.BrlPairExcluded` | testes.py:51 | every symbol with `BRL` at some position fails the filter |
| `Assets.RegularMarketExcluded` | backtest.py:160 | every symbol without `OTC` at any position fails the filter |
| `Assets.AssetBandsOrdered` | backtest.py:14-19 | on an instrument's frame, every position from the 20th candle on has lower band ≤ SMA ≤ upper band |
| `Backtest.RecordsStep` | backtest.py:50-81 | a visited position adds one record exactly when the rule fires there, and none otherwise |
| `Backtest.SignalsOrdered` | backtest.py:30 | the signalling positions strictly increase, lie in [4, len − 5), and are exactly the visited positions where the rule fires |
| `Backtest.RecordsAreSignalsInOrder` | backtest.py:30-81 | record k is the record of the k-th signalling position, so records come in index order with one per signal |
| `Backtest.RecordCountBound` | backtest.py:30 | there are at most max(0, len − 9) records |
| `Backtest.RecordsNameAsset` | backtest.py:50-58 | every record carries the instrument name it was run for |
| `Backtest.RecordContents` | backtest.py:32-81 | every index read (i−4 to i+4) lies in the series; each record holds the trigger's ticks and the mean of candles i−4..i−2; it is Buy iff the Buy conditions hold, with entry low − 0.00005 and Win iff close[i+4] > entry; it is Sell iff the Sell conditions hold, with entry high + 0.00005 and Win iff close[i+4] < entry; no record iff neither rule holds |
| `Backtest.RunBacktest` | backtest.py:25-85 | the loop returns exactly the record sequence `Records`: at most max(0, len − 9) records, all naming the asset |
| `Backtest.NoBandsNoRecords` | backtest.py:38-64 | positions without bands contribute no record |
| `Backtest.EarlyPositionNeverRecords` | backtest.py:12-19 | a position with fewer than `window` closes up to it never yields a record |
| `Backtest.ShortSeriesHasNoRecords` | backtest.py:30 | with the 20-candle window, a series of fewer than 25 candles yields no record |
| `Backtest.FirstBandedPositionVisited` | backtest.py:30 | from 25 candles on, position 19 is visited and has both bands; position len − 5 is never visited |
| `Backtest.ErrorPersists` | backtest.py:165-170 | once one instrument has failed, the whole run fails the same way |
| `Backtest.FramesFollowFilter` | backtest.py:158-179 | the collection fails iff some tradable instrument has no candles; otherwise it holds exactly one frame per tradable instrument, in key order (frame j is the backtest of the j-th tradable instrument), and none at all iff no instrument is tradable |
| `Backtest.ConcatAllRecords` | backtest.py:189 | concatenating one frame per instrument gives those instruments' records one instrument after another |
| `Backtest.BacktestAllOutcome` | backtest.py:158-189 | the run fails with "nothing to concatenate" iff no instrument passes the filter; its only other failure is an empty tradable instrument; on success the output is the records of every tradable instrument, in key order, and every record names a tradable instrument |
| `Backtest.BacktestAll` | backtest.py:146-189 | the instrument loop returns exactly `BacktestAllSpec`: filtered in key order, band-annotated, backtested and concatenated |
| `Live.PyRound` | main.py:33 | Python's `round(n / d)` is within d/2 of n/d, measured in units of d |
| `Live.DurationIsNearestMultiple` | main.py:31-33 | the duration is a multiple of 5 nearest to 60 − second and at most 2 away from it; for seconds 0..59 it lies in [0, 60] |
| `Live.BoundaryDurations` | testes.py:25-27 | seconds 58 and 59 give a 0-second trade, 57 gives 5, and 0 gives 60 |
| `Live.ScanWindowIff` | main.py:105 | the gate admits exactly seconds 50..59 and 0 |
| `Live.LatestReference` | main.py:70-72 | the live reference slice has 3 tick counts once the frame has 4 candles, and fewer before |
| `Live.LiveMatchesBacktestRule` | main.py:69-78 | on 5 or more candles the live reference is ticks at len−5, len−4, len−3, and the live decision equals the backtest rule at position len−1 |
| `Live.ShortFrameNeverSignals` | testes.py:57-67 | with fewer than 20 candles the latest row has no bands, so it never signals |
| `Live.TradeOnlyWhenOpen` | main.py:27-35 | an order goes out iff the re-queried instrument is open; it names the instrument as the re-query returned it; it is a call for Buy and a put for Sell, with stake 55 and a duration that is a multiple of 5 in [0, 60] |
| `Live.MonitorAssets` | main.py:50-88 | the scan returns `ScanFrom`: it stops at the first tradable instrument that signals, with that instrument's direction and order, or it crashes at the first tradable instrument with no candles; every instrument before the stop was filtered out or quiet |
| `Live.MainTick` | main.py:102-106 | a scan runs iff the clock second is in {50..59, 0}, and then it is `monitor_assets`'s scan |
| `Live.StepAgreesWithScan` | testes.py:48-74 | one testes.py iteration places the order that main.py's scan places on that single instrument, but swallows the empty-candle failure; an order needs the filter, a signal and an open re-query, and follows the signal's direction |

## Left out

- The venue client is an input, not a model. Its calls (`connect`, `get_all_assets`, `get_available_asset`, `get_candles`, `buy`, `check_win`, `get_balance`, `close`) are network calls, and their answers are fields of `Asset`. A failed `connect` simply does nothing.
- Settlement is not modelled. After an order, the source waits for `check_win` and prints win or loss; that outcome is decided by the venue.
- `asyncio` scheduling is not modelled: tasks, `gather`, `sleep` and the endless `while True` loops. Only one pass of each loop body is modelled.
- Exception handling is modelled only for an empty candle list. testes.py catches all exceptions per instrument; the other failures it catches are network failures, which the model has no way to produce.
- Report I/O is left out: `save_to_excel`, `to_csv`, `print` and the timing logs.
- The results frame's `Time` column is left out because it is always `None`.
- Floating point is replaced by exact reals. The square root inside the rolling standard deviation is an input column. The float rounding of the means and of the 0.00005 offset is not modelled.
- Wall-clock reads are parameters: `time.time()` and `datetime.now()`.
- `calculate_bands` is modelled only for `window >= 2`. pandas' sample standard deviation of a single close is NaN, so a window of 1 would give no bands at all, and a window of 0 or less is rejected by pandas. Neither case is modelled, because every caller uses `window=20, num_std=2`.
- Determinism and idempotence of the backtest hold by construction: `Records` is a function of its inputs.
