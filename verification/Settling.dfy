/** Slots that are settled up to the rates of their markets, and what settling does to slots. */
module Settling {
  import opened State
  import opened Numeric
  import opened Funding

  /** A slot that is flat, or settled to the rate of its side of its market. */
  predicate SlotUpToDate(markets: seq<Market>, p: Position) {
    p.IsOpen() ==>
      && p.marketIndex < |markets|
      && p.lastCumulativeFundingRate == CumulativeRate(markets[p.marketIndex].amm, p.baseAssetAmount)
  }

  predicate UpToDate(markets: seq<Market>, positions: seq<Position>) {
    forall j :: 0 <= j < |positions| ==> SlotUpToDate(markets, positions[j])
  }

  /** Settling brings every slot up to date. */
  lemma {:induction false} SettlingTracks(markets: seq<Market>, positions: seq<Position>)
    requires SettlePositions(markets, positions).Ok?
    ensures UpToDate(markets, SettlePositions(markets, positions).value.0)
  {
    if positions != [] {
      SettlingTracks(markets, positions[..|positions| - 1]);
    }
  }

  /** Slots that are up to date are owed nothing. */
  lemma {:induction false} NothingLeftToSettle(markets: seq<Market>, positions: seq<Position>)
    requires UpToDate(markets, positions)
    ensures SettlePositions(markets, positions) == Ok((positions, 0))
  {
    if positions != [] {
      var n := |positions| - 1;
      NothingLeftToSettle(markets, positions[..n]);
      assert SlotUpToDate(markets, positions[n]);
      assert positions == positions[..n] + [positions[n]];
    }
  }

  /** What settling does to a slot: an open one takes the rate of its side and, if that had moved, the time
      of the market's last update; nothing else of it changes. */
  predicate Settled(markets: seq<Market>, p: Position, p': Position) {
    if !p.IsOpen() then p' == p else
      && p.marketIndex < |markets|
      && var a := markets[p.marketIndex].amm;
         var moved := CumulativeRate(a, p.baseAssetAmount) != p.lastCumulativeFundingRate;
         p' == p.(lastCumulativeFundingRate := CumulativeRate(a, p.baseAssetAmount),
                  lastFundingRateTs := if moved then a.lastFundingRateTs else p.lastFundingRateTs)
  }

  lemma {:induction false} SettlesEverySlot(markets: seq<Market>, positions: seq<Position>, j: nat)
    requires SettlePositions(markets, positions).Ok? && j < |positions|
    ensures Settled(markets, positions[j], SettlePositions(markets, positions).value.0[j])
  {
    var n := |positions| - 1;
    if j < n {
      SettlesEverySlot(markets, positions[..n], j);
    }
  }
}
