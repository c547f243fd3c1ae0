/** The entry rule shared by the backtest and both live monitors: a candle
    that pierces a band, closes back inside it with a body in the reversal
    direction, and trades more ticks than the mean of a reference slice of
    earlier candles. */
module Signals {
  import opened Candles
  import opened Bands

  /** Buy is "Compra" in the backtest and "call" when trading; Sell is
      "Venda" and "put". */
  datatype Direction = Buy | Sell

  /** Win/loss label of a backtested signal. */
  datatype Verdict = Win | Loss

  /** The discount taken from the low (Buy) or added to the high (Sell). */
  const SLIPPAGE: real := 0.00005

  /** numpy `mean` of a tick slice; the mean of nothing is NaN. */
  function Mean(ticks: seq<nat>): (m: Option<real>)
    ensures m.Some? <==> |ticks| > 0
  {
    if |ticks| == 0 then None else Some(Sum(ticks) as real / |ticks| as real)
  }

  /** `ticks > mean`; a NaN mean compares false. */
  predicate AboveMean(ticks: nat, mean: Option<real>)
  {
    mean.Some? && ticks as real > mean.value
  }

  /** The Buy branch: low at or under the lower band, a bullish body, a close
      back above the lower band, and ticks above the reference mean. */
  predicate BuyRule(r: Row, ref: seq<nat>)
  {
    && r.lowerBand.Some?
    && r.candle.low <= r.lowerBand.value
    && r.candle.close > r.candle.open
    && r.candle.close > r.lowerBand.value
    && AboveMean(r.candle.ticks, Mean(ref))
  }

  /** The Sell branch, the mirror of `BuyRule` against the upper band. */
  predicate SellRule(r: Row, ref: seq<nat>)
  {
    && r.upperBand.Some?
    && r.candle.high >= r.upperBand.value
    && r.candle.close < r.candle.open
    && r.candle.close < r.upperBand.value
    && AboveMean(r.candle.ticks, Mean(ref))
  }

  /** The `if`/`elif` of the source: Buy is tried first, Sell only when Buy
      fails. */
  function Decide(r: Row, ref: seq<nat>): Option<Direction>
  {
    if BuyRule(r, ref) then Some(Buy)
    else if SellRule(r, ref) then Some(Sell)
    else None
  }

  /** Price at which a signal is taken. */
  function EntryPrice(c: Candle, d: Direction): real
  {
    match d
    case Buy => c.low - SLIPPAGE
    case Sell => c.high + SLIPPAGE
  }

  /** A Buy wins when the later close is above the entry, a Sell when it is
      below; anything else, equality included, is a loss. */
  function Label(d: Direction, entry: real, laterClose: real): Verdict
  {
    match d
    case Buy => if laterClose > entry then Win else Loss
    case Sell => if laterClose < entry then Win else Loss
  }

  /** `df.iloc[i-4:i]['ticks'][:3]`: the first three of the four candles
      before position `i`. */
  function ReferenceTicks(rows: seq<Row>, i: nat): (t: seq<nat>)
    requires 4 <= i <= |rows|
    ensures |t| == 3
  {
    var window := seq(4, k requires 0 <= k < 4 => rows[i - 4 + k].candle);
    Ticks(window)[..3]
  }

  /** The reference slice is candles `i-4`, `i-3` and `i-2`: the candle just
      before the trigger is never used. */
  lemma ReferenceSkipsPreviousCandle(rows: seq<Row>, i: nat)
    requires 4 <= i <= |rows|
    ensures ReferenceTicks(rows, i)
            == [rows[i - 4].candle.ticks, rows[i - 3].candle.ticks, rows[i - 2].candle.ticks]
  {
  }

  /** With three reference candles the volume test `ticks > mean(a, b, c)` is
      the integer comparison `3·ticks > a + b + c`. */
  lemma VolumeTestIsIntegral(ticks: nat, a: nat, b: nat, c: nat)
    ensures AboveMean(ticks, Mean([a, b, c])) <==> 3 * ticks > a + b + c
  {
    Sum3(a, b, c);
  }

  /** The rule in full: a signal is Buy exactly when the four Buy conditions
      hold, Sell exactly when the four Sell conditions hold, and the two can
      never both hold, since one needs close > open and the other close <
      open. */
  lemma DecisionCharacterised(r: Row, ref: seq<nat>)
    ensures !(BuyRule(r, ref) && SellRule(r, ref))
    ensures Decide(r, ref) == Some(Buy) <==>
      r.lowerBand.Some? && r.candle.low <= r.lowerBand.value && r.candle.close > r.candle.open
      && r.candle.close > r.lowerBand.value && AboveMean(r.candle.ticks, Mean(ref))
    ensures Decide(r, ref) == Some(Sell) <==>
      r.upperBand.Some? && r.candle.high >= r.upperBand.value && r.candle.close < r.candle.open
      && r.candle.close < r.upperBand.value && AboveMean(r.candle.ticks, Mean(ref))
    ensures Decide(r, ref).Some? ==> r.candle.close != r.candle.open && |ref| > 0
  {
  }

  /** A row without bands (fewer than `window` closes so far) never signals. */
  lemma NoBandsNoSignal(r: Row, ref: seq<nat>)
    requires r.upperBand == None && r.lowerBand == None
    ensures Decide(r, ref) == None
  {
  }

  /** The bullish-reversal scenario: low 0.99000 under a lower band of
      0.99010, open 0.99050, close 0.99100, 150 ticks against a reference mean
      of 100 is a Buy at 0.98995; a later close of 0.99200 wins and one of
      0.98900 loses. The same candle with close under open does not signal. */
  lemma BullishReversalScenario()
    ensures var c := Candle(0.99050, 0.99300, 0.99000, 0.99100, 150);
      var r := Row(c, Some(0.99760), Some(0.00375), Some(1.00510), Some(0.99010));
      && Decide(r, [100, 100, 100]) == Some(Buy)
      && EntryPrice(c, Buy) == 0.98995
      && Label(Buy, EntryPrice(c, Buy), 0.99200) == Win
      && Label(Buy, EntryPrice(c, Buy), 0.98900) == Loss
      && Decide(r.(candle := c.(open := 0.99150)), [100, 100, 100]).None?
  {
    VolumeTestIsIntegral(150, 100, 100, 100);
  }
}
