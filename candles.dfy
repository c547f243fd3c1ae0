/** The price series the venue delivers: one OHLC candle per period, with
    its tick count. Prices are exact reals, so the 0.00005 entry offset used
    by the signal rule is exact. A pandas NaN is modelled as `None`. */
module Candles {

  datatype Option<+T> = None | Some(value: T)

  /** An outcome that is either a value or the error that aborted it. */
  datatype Result<+T, +E> = Ok(value: T) | Err(error: E)

  /** One candle of a series: open, high, low and close prices and the number
      of price ticks seen during the period (the `ticks` column). */
  datatype Candle = Candle(open: real, high: real, low: real, close: real, ticks: nat)

  /** Sum of tick counts. */
  function Sum(s: seq<nat>): nat
  {
    if s == [] then 0 else Sum(s[..|s| - 1]) + s[|s| - 1]
  }

  /** The sum of three tick counts, unfolded. */
  lemma Sum3(a: nat, b: nat, c: nat)
    ensures Sum([a, b, c]) == a + b + c
  {
    assert [a, b, c][..2] == [a, b];
    assert [a, b][..1] == [a];
    assert [a][..0] == [];
    assert Sum([a]) == a;
    assert Sum([a, b]) == a + b;
  }

  /** Sum of the close prices of a run of candles. */
  function SumClose(cs: seq<Candle>): real
  {
    if cs == [] then 0.0 else SumClose(cs[..|cs| - 1]) + cs[|cs| - 1].close
  }

  /** The `ticks` column of a run of candles. */
  function Ticks(cs: seq<Candle>): (t: seq<nat>)
    ensures |t| == |cs|
    ensures forall i :: 0 <= i < |cs| ==> t[i] == cs[i].ticks
  {
    if cs == [] then [] else Ticks(cs[..|cs| - 1]) + [cs[|cs| - 1].ticks]
  }

  /** A sum of closes lies between `|cs|` times any lower and any upper bound
      of those closes. */
  lemma {:induction false} SumCloseBounds(cs: seq<Candle>, lo: real, hi: real)
    requires forall j :: 0 <= j < |cs| ==> lo <= cs[j].close <= hi
    ensures |cs| as real * lo <= SumClose(cs) <= |cs| as real * hi
  {
    if cs != [] {
      var n := |cs| - 1;
      SumCloseBounds(cs[..n], lo, hi);
      assert |cs| as real * lo == n as real * lo + lo;
      assert |cs| as real * hi == n as real * hi + hi;
    }
  }
}
