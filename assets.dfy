/** The instrument universe and the filter applied to it before any candle is
    fetched: only open, currency-pair ("/"), OTC instruments not quoted in
    BRL are scanned. */
module Assets {
  import opened Candles
  import opened Bands

  /** What the venue answers about one instrument during a cycle: its key in
      `get_all_assets()`, the name `get_available_asset` returns, the
      descriptor symbol and open flag it returns (`asset_data[1]`,
      `asset_data[2]`), the candles `get_candles` returns, the rolling
      standard deviation pandas computes for them, and the name and open flag
      the forced re-query in `buy_and_check_win` returns. The two queries
      are separate calls, so their answers are separate fields. */
  datatype Asset = Asset(code: string, name: string, symbol: string, isOpen: bool,
                         candles: seq<Candle>, stdev: seq<real>,
                         nameOnRecheck: string, openOnRecheck: bool)

  /** One non-negative standard deviation value per candle, as pandas gives. */
  predicate Aligned(a: Asset)
  {
    StdColumn(a.candles, a.stdev)
  }

  /** `p` is a prefix of `s`. */
  predicate StartsWith(s: string, p: string)
  {
    |p| <= |s| && s[..|p|] == p
  }

  /** Python's `p in s` on strings: `p` occurs in `s` as a substring. */
  predicate Contains(s: string, p: string)
    decreases |s|
  {
    StartsWith(s, p) || (|s| > 0 && Contains(s[1..], p))
  }

  /** A copy of `p` starts at position `k` of `s`. */
  predicate OccursAt(s: string, p: string, k: int)
  {
    0 <= k && k + |p| <= |s| && s[k..k + |p|] == p
  }

  /** `Contains` finds `p` exactly when some position of `s` starts a copy
      of it. */
  lemma {:induction false} ContainsIff(s: string, p: string)
    ensures Contains(s, p) <==> exists k :: OccursAt(s, p, k)
  {
    if StartsWith(s, p) {
      assert OccursAt(s, p, 0);
    } else if |s| > 0 {
      ContainsIff(s[1..], p);
      if Contains(s[1..], p) {
        var k :| OccursAt(s[1..], p, k);
        assert OccursAt(s, p, k + 1);
      }
      if k :| OccursAt(s, p, k) {
        assert k > 0;
        assert OccursAt(s[1..], p, k - 1);
      }
    }
  }

  /** The filter of backtest.py:160, main.py:58 and testes.py:51. */
  predicate Tradable(a: Asset)
  {
    a.isOpen && Contains(a.symbol, "/") && !Contains(a.symbol, "BRL") && Contains(a.symbol, "OTC")
  }

  /** The filter in terms of occurrences: an open symbol with a `/` and an
      `OTC` somewhere in it and no `BRL` anywhere. */
  lemma FilterCharacterised(a: Asset)
    ensures Tradable(a) <==>
      && a.isOpen
      && (exists i :: OccursAt(a.symbol, "/", i))
      && (forall k :: !OccursAt(a.symbol, "BRL", k))
      && (exists j :: OccursAt(a.symbol, "OTC", j))
  {
    ContainsIff(a.symbol, "/");
    ContainsIff(a.symbol, "BRL");
    ContainsIff(a.symbol, "OTC");
  }

  /** A currency pair tagged OTC and not quoted in BRL passes the filter
      exactly when it is open. */
  lemma OpenOtcPairPasses(a: Asset, i: int, j: int)
    requires OccursAt(a.symbol, "/", i) && OccursAt(a.symbol, "OTC", j)
    requires forall k :: !OccursAt(a.symbol, "BRL", k)
    ensures Tradable(a) <==> a.isOpen
  {
    FilterCharacterised(a);
  }

  /** A symbol with `BRL` anywhere in it never passes, open or not. */
  lemma BrlPairExcluded(a: Asset, k: int)
    requires OccursAt(a.symbol, "BRL", k)
    ensures !Tradable(a)
  {
    FilterCharacterised(a);
  }

  /** A symbol without the `OTC` tag never passes, open or not. */
  lemma RegularMarketExcluded(a: Asset)
    requires forall k :: !OccursAt(a.symbol, "OTC", k)
    ensures !Tradable(a)
  {
    FilterCharacterised(a);
  }

  /** On an instrument's frame the SMA lies between its bands at every
      position that has them. */
  lemma AssetBandsOrdered(a: Asset, i: nat)
    requires Aligned(a) && WINDOW <= i + 1 <= |a.candles|
    ensures var r := Annotate(a.candles, a.stdev, WINDOW, NUM_STD)[i];
      && r.lowerBand.Some? && r.sma.Some? && r.upperBand.Some?
      && r.lowerBand.value <= r.sma.value <= r.upperBand.value
  {
    BandGeometry(a.candles, a.stdev, WINDOW, NUM_STD, i);
  }
}
