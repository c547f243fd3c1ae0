/** Bollinger bands (`calculate_bands`): a rolling simple moving average of
    the close over `window` candles, a rolling standard deviation, and the
    bands `sma ± num_std·std`. Every value is NaN (`None`) until `window`
    closes exist. The standard deviation needs a square root, so its column
    is an input here: one non-negative value per candle, of which only the
    positions with a full window are used. */
module Bands {
  import opened Candles

  /** The defaults every caller uses: `window=20, num_std=2`. */
  const WINDOW: nat := 20
  const NUM_STD: real := 2.0

  /** One row of the annotated frame: the candle and its four added columns. */
  datatype Row = Row(candle: Candle, sma: Option<real>, std: Option<real>,
                     upperBand: Option<real>, lowerBand: Option<real>)

  /** `close.rolling(window).mean()` at position `i`. */
  function RollingMean(candles: seq<Candle>, window: nat, i: nat): (m: Option<real>)
    requires 0 < window && i < |candles|
    ensures m.Some? <==> i + 1 >= window
  {
    if i + 1 >= window then Some(SumClose(candles[i + 1 - window .. i + 1]) / window as real)
    else None
  }

  /** `close.rolling(window).std()` at position `i`, read from the input
      column. pandas takes the sample deviation (one degree of freedom), which
      a window of a single close leaves undefined, hence `window >= 2`. */
  function RollingStd(stdev: seq<real>, window: nat, i: nat): (s: Option<real>)
    requires 2 <= window && i < |stdev|
    ensures s.Some? <==> i + 1 >= window
  {
    if i + 1 >= window then Some(stdev[i]) else None
  }

  /** `sma + std * num_std`; NaN in either operand gives NaN. */
  function UpperOf(sma: Option<real>, std: Option<real>, numStd: real): Option<real>
  {
    if sma.Some? && std.Some? then Some(sma.value + std.value * numStd) else None
  }

  /** `sma - std * num_std`; NaN in either operand gives NaN. */
  function LowerOf(sma: Option<real>, std: Option<real>, numStd: real): Option<real>
  {
    if sma.Some? && std.Some? then Some(sma.value - std.value * numStd) else None
  }

  /** Row `i` of the frame after `calculate_bands`. */
  function AnnotateAt(candles: seq<Candle>, stdev: seq<real>, window: nat, numStd: real, i: nat): Row
    requires 2 <= window && |stdev| == |candles| && i < |candles|
  {
    var sma := RollingMean(candles, window, i);
    var std := RollingStd(stdev, window, i);
    Row(candles[i], sma, std, UpperOf(sma, std, numStd), LowerOf(sma, std, numStd))
  }

  /** The whole frame after `calculate_bands`: the candles are kept in order,
      one row each. */
  function Annotate(candles: seq<Candle>, stdev: seq<real>, window: nat, numStd: real): (rows: seq<Row>)
    requires 2 <= window && |stdev| == |candles|
    ensures |rows| == |candles|
    ensures forall i :: 0 <= i < |rows| ==> rows[i].candle == candles[i]
  {
    seq(|candles|, i requires 0 <= i < |candles| => AnnotateAt(candles, stdev, window, numStd, i))
  }

  /** The non-negative standard deviation input the source's pandas would give. */
  predicate StdColumn(candles: seq<Candle>, stdev: seq<real>)
  {
    |stdev| == |candles| && forall i :: 0 <= i < |stdev| ==> stdev[i] >= 0.0
  }

  /** A pandas DataFrame of candles to which `calculate_bands` adds its four
      columns in place. Before that call the band columns do not exist
      (empty here). */
  class Frame {
    var candles: seq<Candle>
    var sma: seq<Option<real>>
    var std: seq<Option<real>>
    var upperBand: seq<Option<real>>
    var lowerBand: seq<Option<real>>

    /** `pd.DataFrame(candles)`. */
    constructor (candles: seq<Candle>)
      ensures this.candles == candles
      ensures sma == [] && std == [] && upperBand == [] && lowerBand == []
    {
      this.candles := candles;
      sma, std, upperBand, lowerBand := [], [], [], [];
    }

    /** All four band columns are present, one value per candle. */
    predicate HasBandColumns()
      reads this
    {
      |sma| == |candles| && |std| == |candles| && |upperBand| == |candles| && |lowerBand| == |candles|
    }

    /** The frame read row by row. */
    function Rows(): (rows: seq<Row>)
      reads this
      requires HasBandColumns()
      ensures |rows| == |candles|
    {
      var c, m, s, u, l := candles, sma, std, upperBand, lowerBand;
      seq(|c|, i requires 0 <= i < |c| => Row(c[i], m[i], s[i], u[i], l[i]))
    }

    /** `calculate_bands(df, window, num_std)`: adds the `sma`, `std`,
        `upperBand` and `lowerBand` columns and leaves the candles as they
        were. A frame built from no candles has no `close` column, so pandas
        raises: `ok` is false and nothing changes. */
    method CalculateBands(stdev: seq<real>, window: nat, numStd: real) returns (ok: bool)
      requires 2 <= window && |stdev| == |candles|
      modifies this
      ensures candles == old(candles)
      ensures ok <==> |candles| > 0
      ensures ok ==> HasBandColumns() && Rows() == Annotate(candles, stdev, window, numStd)
      ensures !ok ==> sma == old(sma) && std == old(std)
                      && upperBand == old(upperBand) && lowerBand == old(lowerBand)
    {
      if |candles| == 0 {
        return false;
      }
      var c := candles;
      var m := seq(|c|, i requires 0 <= i < |c| => RollingMean(c, window, i));
      var s := seq(|c|, i requires 0 <= i < |c| => RollingStd(stdev, window, i));
      sma, std := m, s;
      upperBand := seq(|c|, i requires 0 <= i < |c| => UpperOf(m[i], s[i], numStd));
      lowerBand := seq(|c|, i requires 0 <= i < |c| => LowerOf(m[i], s[i], numStd));
      ok := true;
      forall i | 0 <= i < |c|
        ensures Rows()[i] == Annotate(c, stdev, window, numStd)[i]
      {
      }
    }
  }

  /** Bands exist exactly from the `window`-th candle on. Where they exist the
      band width is `2·num_std·std`, the bands are symmetric about the SMA,
      and for non-negative `num_std` and `std` the SMA lies between them. */
  lemma BandGeometry(candles: seq<Candle>, stdev: seq<real>, window: nat, numStd: real, i: nat)
    requires 2 <= window && |stdev| == |candles| && i < |candles|
    ensures var r := Annotate(candles, stdev, window, numStd)[i];
      && (r.upperBand.Some? <==> i + 1 >= window)
      && (r.lowerBand.Some? <==> i + 1 >= window)
      && (r.upperBand.Some? ==>
            && r.sma.Some? && r.std == Some(stdev[i])
            && r.upperBand.value - r.lowerBand.value == 2.0 * numStd * stdev[i]
            && r.upperBand.value + r.lowerBand.value == 2.0 * r.sma.value
            && (numStd >= 0.0 && stdev[i] >= 0.0 ==>
                  r.lowerBand.value <= r.sma.value <= r.upperBand.value))
  {
    var r := Annotate(candles, stdev, window, numStd)[i];
    if i + 1 >= window {
      assert stdev[i] * numStd == numStd * stdev[i];
      if numStd >= 0.0 && stdev[i] >= 0.0 {
        assert stdev[i] * numStd >= 0.0;
      }
    }
  }

  /** The SMA is a mean of the window's closes: it lies within any bounds that
      hold for every close of the trailing window. */
  lemma SmaWithinWindow(candles: seq<Candle>, stdev: seq<real>, window: nat, numStd: real,
                        i: nat, lo: real, hi: real)
    requires 2 <= window && |stdev| == |candles| && window <= i + 1 <= |candles|
    requires forall j :: i + 1 - window <= j <= i ==> lo <= candles[j].close <= hi
    ensures var r := Annotate(candles, stdev, window, numStd)[i];
      r.sma.Some? && lo <= r.sma.value <= hi
  {
    var w := candles[i + 1 - window .. i + 1];
    assert forall j :: 0 <= j < |w| ==> w[j] == candles[i + 1 - window + j];
    SumCloseBounds(w, lo, hi);
    QuotientBounds(SumClose(w), window as real, lo, hi);
  }

  /** Dividing by a positive count keeps a sum's per-element bounds. */
  lemma QuotientBounds(s: real, n: real, lo: real, hi: real)
    requires n > 0.0 && n * lo <= s <= n * hi
    ensures lo <= s / n <= hi
  {
    var q := s / n;
    assert (q - lo) * n == s - n * lo;
    assert (hi - q) * n == n * hi - s;
  }

  /** Number of rows whose bands are defined. */
  function CountBanded(rows: seq<Row>): nat
  {
    if rows == [] then 0
    else CountBanded(rows[..|rows| - 1]) + (if rows[|rows| - 1].upperBand.Some? then 1 else 0)
  }

  /** A series of `n ≥ window` candles has exactly `n - window + 1` rows with
      bands; a shorter one has none. */
  lemma {:induction false} BandedCount(candles: seq<Candle>, stdev: seq<real>, window: nat, numStd: real)
    requires 2 <= window && |stdev| == |candles|
    ensures CountBanded(Annotate(candles, stdev, window, numStd))
            == if |candles| >= window then |candles| - window + 1 else 0
  {
    if candles != [] {
      var n := |candles| - 1;
      var rows := Annotate(candles, stdev, window, numStd);
      var prefix := Annotate(candles[..n], stdev[..n], window, numStd);
      forall j | 0 <= j < n
        ensures rows[j] == prefix[j]
      {
        if j + 1 >= window {
          assert candles[..n][j + 1 - window .. j + 1] == candles[j + 1 - window .. j + 1];
        }
      }
      assert rows[..n] == prefix;
      BandedCount(candles[..n], stdev[..n], window, numStd);
      BandGeometry(candles, stdev, window, numStd, n);
    }
  }
}
