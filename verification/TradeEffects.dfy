/** What trades change in a market, and what they leave alone: its fees, rates, oracle values, peg,
    root and clocks. */
module TradeEffects {
  import opened Numeric
  import opened State
  import opened Curve
  import opened Trading
  import opened Shapes
  import opened Invariants
  import I = Instructions

  /** Only the reserves, the mark average and the aggregates differ. */
  predicate OnlyTraded(m: Market, m': Market) {
    && m'.initialized == m.initialized
    && m'.amm == m.amm.(baseAssetReserve := m'.amm.baseAssetReserve, quoteAssetReserve := m'.amm.quoteAssetReserve,
                        lastMarkPriceTwap := m'.amm.lastMarkPriceTwap, lastMarkPriceTwapTs := m'.amm.lastMarkPriceTwapTs)
  }

  predicate AllTraded(before: seq<Market>, after: seq<Market>) {
    |after| == |before| && forall i :: 0 <= i < |before| ==> OnlyTraded(before[i], after[i])
  }

  lemma IncreaseEffect(a: I.Accounts, j: nat, direction: PositionDirection, quote: u128, now: i64)
    requires j < |a.user.positions| && I.IncreaseSlot(a, j, direction, quote, now).Ok?
    ensures AllTraded(a.markets, I.IncreaseSlot(a, j, direction, quote, now).value.0.markets)
  {
    var p := a.user.positions[j];
    var m := a.markets[p.marketIndex];
    if quote != 0 {
      var (m', p', acquired) := Increase(direction, quote, m, p, now).value;
      IncreaseShape(direction, quote, m, p, now);
      SwapQuoteShape(m.amm, quote, QuoteSwapDirection(direction), now, None);
      BookShape(m.(amm := m'.amm, openInterest := m'.openInterest), p'.baseAssetAmount, acquired);
    }
  }

  lemma ReduceEffect(a: I.Accounts, j: nat, direction: PositionDirection, quote: u128, now: i64, mark: Option<u128>)
    requires j < |a.user.positions| && I.ReduceSlot(a, j, direction, quote, now, mark).Ok?
    ensures AllTraded(a.markets, I.ReduceSlot(a, j, direction, quote, now, mark).value.0.markets)
  {
    var p := a.user.positions[j];
    var m := a.markets[p.marketIndex];
    var (m', p', _, swapped) := Reduce(direction, quote, a.user.collateral, m, p, now, mark).value;
    ReduceShape(direction, quote, a.user.collateral, m, p, now, mark);
    SwapQuoteShape(m.amm, quote, QuoteSwapDirection(direction), now, mark);
    BookShape(m.(amm := m'.amm, openInterest := m'.openInterest), p'.baseAssetAmount, swapped);
  }

  lemma CloseEffect(a: I.Accounts, j: nat, now: i64)
    requires j < |a.user.positions| && I.CloseSlot(a, j, now).Ok?
    ensures AllTraded(a.markets, I.CloseSlot(a, j, now).value.0.markets)
  {
    var p := a.user.positions[j];
    var m := a.markets[p.marketIndex];
    if p.IsOpen() {
      var (m', p', _, _) := Close(a.user.collateral, m, p, now).value;
      CloseShape(a.user.collateral, m, p, now);
      SwapBaseShape(m.amm, Abs(p.baseAssetAmount), SwapDirectionToClose(p.baseAssetAmount), now);
      BookShape(m.(amm := m'.amm, openInterest := m'.openInterest), p.baseAssetAmount, 0 - p.baseAssetAmount);
    }
  }

  lemma FlipEffect(a: I.Accounts, j: nat, direction: PositionDirection, quote: u128, value: u128, now: i64)
    requires j < |a.user.positions| && I.Flip(a, j, direction, quote, value, now).Ok?
    ensures AllTraded(a.markets, I.Flip(a, j, direction, quote, value, now).value.accounts.markets)
  {
    CloseEffect(a, j, now);
    IncreaseEffect(I.CloseSlot(a, j, now).value.0, j, direction, FitU128(quote - value).value, now);
  }

  lemma TradeEffect(a: I.Accounts, j: nat, direction: PositionDirection, quote: u128, now: i64)
    requires j < |a.user.positions| && a.user.positions[j].marketIndex < |a.markets|
    requires I.Trade(a, j, direction, quote, now).Ok?
    ensures AllTraded(a.markets, I.Trade(a, j, direction, quote, now).value.accounts.markets)
  {
    var p := a.user.positions[j];
    if I.AddsTo(p.baseAssetAmount, direction) {
      IncreaseEffect(a, j, direction, quote, now);
    } else {
      var amm := a.markets[p.marketIndex].amm;
      var value := ValueAndPnl(p.baseAssetAmount, p.quoteAssetAmount, amm).value.0;
      var quote' := if I.ShouldRound(amm, quote, value).value then value else quote;
      if value > quote' {
        ReduceEffect(a, j, direction, quote', now, None);
      } else {
        FlipEffect(a, j, direction, quote', value, now);
      }
    }
  }

  lemma {:induction false} LiquidateSlotsEffect(a: I.Accounts, k: nat, blocked: set<u64>, now: i64)
    requires I.LiquidateSlots(a, k, blocked, now).Ok?
    ensures AllTraded(a.markets, I.LiquidateSlots(a, k, blocked, now).value.0.markets)
  {
    if k != 0 {
      LiquidateSlotsEffect(a, k - 1, blocked, now);
      var before := I.LiquidateSlots(a, k - 1, blocked, now).value.0;
      if before.user.positions[k - 1].IsOpen() {
        CloseEffect(before, k - 1, now);
      }
    }
  }

  lemma TrimSlotEffect(config: I.Config, a: I.Accounts, j: nat, blocked: set<u64>, now: i64)
    requires j < |a.user.positions| && I.TrimSlot(config, a, j, blocked, now).Ok?
    ensures AllTraded(a.markets, I.TrimSlot(config, a, j, blocked, now).value.0.markets)
  {
    var p := a.user.positions[j];
    if p.IsOpen() {
      var amm := a.markets[p.marketIndex].amm;
      var value := ValueAndPnl(p.baseAssetAmount, p.quoteAssetAmount, amm).value.0;
      ReduceEffect(a, j, DirectionToClose(p.baseAssetAmount), I.PartialValue(config, value).value, now,
                     Some(MarkPrice(amm).value));
    }
  }

  lemma {:induction false} TrimSlotsEffect(config: I.Config, a: I.Accounts, k: nat, blocked: set<u64>, now: i64)
    requires I.TrimSlots(config, a, k, blocked, now).Ok?
    ensures AllTraded(a.markets, I.TrimSlots(config, a, k, blocked, now).value.0.markets)
  {
    if k != 0 {
      TrimSlotsEffect(config, a, k - 1, blocked, now);
      TrimSlotEffect(config, I.TrimSlots(config, a, k - 1, blocked, now).value.0, k - 1, blocked, now);
    }
  }

  // ----- The cases of a trade

  /** What a position is worth, and the amount a trade against it uses. */
  function Against(p: Position, a: Amm, quote: u128): (u128, u128)
    requires ValueAndPnl(p.baseAssetAmount, p.quoteAssetAmount, a).Ok?
  {
    var value := ValueAndPnl(p.baseAssetAmount, p.quoteAssetAmount, a).value.0;
    (value, if I.ShouldRound(a, quote, value) == Ok(true) then value else quote)
  }

  /** A trade against a position is a reduction or a close and reversal. */
  lemma TradeAgainstCases(a: I.Accounts, j: nat, direction: PositionDirection, quote: u128, now: i64)
    requires j < |a.user.positions| && a.user.positions[j].marketIndex < |a.markets|
    requires !I.AddsTo(a.user.positions[j].baseAssetAmount, direction) && I.TradeAgainst(a, j, direction, quote, now).Ok?
    ensures var p := a.user.positions[j];
            var amm := a.markets[p.marketIndex].amm;
            && p.IsOpen() && ValueAndPnl(p.baseAssetAmount, p.quoteAssetAmount, amm).Ok?
            && var (value, used) := Against(p, amm, quote);
               var r := I.TradeAgainst(a, j, direction, quote, now);
               if value > used then
                 && Guarded(used, a.markets[p.marketIndex], p)
                 && I.ReduceSlot(a, j, direction, used, now, None).Ok?
                 && var (after, swapped) := I.ReduceSlot(a, j, direction, used, now, None).value;
                    r.value == I.Traded(after, used, Abs(swapped), false)
               else
                 I.Flip(a, j, direction, used, value, now).Ok? && r == I.Flip(a, j, direction, used, value, now)
  {
  }

  /** One slot and its market changed, and the user's collateral. */
  predicate OneSlotChanged(a: I.Accounts, j: nat, b: I.Accounts) {
    && j < |a.user.positions| == |b.user.positions| && |b.markets| == |a.markets|
    && var i := a.user.positions[j].marketIndex;
       && i < |a.markets| && b.user.positions[j].marketIndex == i
       && b == I.Store(a, j, b.markets[i], b.user.positions[j], b.user.collateral)
  }

  /** The slot's market has a tight curve. */
  predicate OnCurve(a: I.Accounts, j: nat) {
    && j < |a.user.positions| && a.user.positions[j].marketIndex < |a.markets|
    && var amm := a.markets[a.user.positions[j].marketIndex].amm;
       TightCurve(amm) && 1 <= amm.minimumTradeSize
  }
}
