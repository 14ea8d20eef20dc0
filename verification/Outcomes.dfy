/** What a trade does to the user who makes it: his position, his collateral, and what the trade is said
    to have used, moved and risked. */
module Outcomes {
  import opened Numeric
  import opened State
  import opened Curve
  import opened Trading
  import opened Shapes
  import opened Rounding
  import opened Equity
  import opened Invariants
  import opened TradeEffects
  import I = Instructions

  // ----- Rounding to a close

  /** An amount is taken for the value of a position when the difference, in reserves, is below the
      minimum trade. */
  lemma RoundingIff(a: Amm, quote: u128, value: u128)
    requires I.ShouldRound(a, quote, value).Ok?
    ensures 0 < a.pegMultiplier
    ensures I.ShouldRound(a, quote, value).value <==> Reserves(Abs(quote - value), a.pegMultiplier) < a.minimumTradeSize
  {
  }

  /** A quote swap is refused as too small exactly if its amount, in reserves, is below the minimum. */
  lemma TooSmallIff(a: Amm, quote: u128, direction: SwapDirection)
    requires AssetToReserve(quote, a.pegMultiplier).Ok?
    ensures 0 < a.pegMultiplier
    ensures SwapQuote(a, quote, direction) == Err(TradeSizeTooSmall)
            <==> Reserves(quote, a.pegMultiplier) < a.minimumTradeSize
  {
  }

  // ----- What the trade is

  /** The position is flat or on the side of the trade. */
  predicate Adds(p: Position, direction: PositionDirection) {
    !p.IsOpen() || (p.baseAssetAmount > 0) == direction.Long?
  }

  /** A trade raises the user's risk if it adds to his position, or reverses it into one that is worth
      at least as much as the one it closes. */
  predicate RaisesRisk(p: Position, a: Amm, direction: PositionDirection, quote: u128) {
    || Adds(p, direction)
    || (&& ValueAndPnl(p.baseAssetAmount, p.quoteAssetAmount, a).Ok?
        && var (value, used) := Against(p, a, quote); value <= used - value)
  }

  /** The quote amount a trade uses. */
  function UsedQuote(p: Position, a: Amm, direction: PositionDirection, quote: u128): u128 {
    if Adds(p, direction) || ValueAndPnl(p.baseAssetAmount, p.quoteAssetAmount, a).Err? then quote
    else Against(p, a, quote).1
  }

  // ----- What becomes of the position and the collateral

  predicate OnSideOrFlat(direction: PositionDirection, base: int) {
    if direction.Long? then 0 <= base else base <= 0
  }

  /** Adding grows the position and its entry notional, and leaves the collateral alone. */
  predicate Added(p: Position, direction: PositionDirection, quote: u128, c: nat, p': Position, c': nat) {
    && c' == c && p'.quoteAssetAmount == p.quoteAssetAmount + quote
    && OnSideOrFlat(direction, p'.baseAssetAmount - p.baseAssetAmount)
  }

  /** Reducing keeps the side, closes part of the entry notional and realises the rest of the amount. */
  predicate Reduced(p: Position, quote: u128, c: nat, p': Position, c': nat) {
    && (if p.baseAssetAmount > 0 then 0 < p'.baseAssetAmount <= p.baseAssetAmount
        else p.baseAssetAmount <= p'.baseAssetAmount <= 0)
    && p'.quoteAssetAmount <= p.quoteAssetAmount
    && var closed := p.quoteAssetAmount - p'.quoteAssetAmount;
       c' == Max(c + (if p.baseAssetAmount > 0 then quote - closed else closed - quote), 0)
  }

  /** Reversing realises the profit of the whole position and enters the other side with the rest. */
  predicate Reversed(direction: PositionDirection, value: u128, pnl: i128, used: u128, c: nat, p': Position, c': nat) {
    && value <= used && p'.quoteAssetAmount == used - value && c' == Max(c + pnl, 0)
    && OnSideOrFlat(direction, p'.baseAssetAmount)
    && (used == value ==> !p'.IsOpen())
  }

  predicate Outcome(p: Position, a: Amm, direction: PositionDirection, quote: u128, c: nat, p': Position, c': nat) {
    && p'.marketIndex == p.marketIndex
    && if Adds(p, direction) then Added(p, direction, quote, c, p', c') else
         && ValueAndPnl(p.baseAssetAmount, p.quoteAssetAmount, a).Ok?
         && var (value, used) := Against(p, a, quote);
            if used < value then Reduced(p, used, c, p', c')
            else Reversed(direction, value, ValueAndPnl(p.baseAssetAmount, p.quoteAssetAmount, a).value.1, used, c, p', c')
  }

  /** What a trade on slot j reports agrees with what it did. */
  predicate Reports(a: I.Accounts, j: nat, direction: PositionDirection, quote: u128, t: I.Traded) {
    && OneSlotChanged(a, j, t.accounts) && AllTraded(a.markets, t.accounts.markets)
    && var p, p' := a.user.positions[j], t.accounts.user.positions[j];
       var amm := a.markets[p.marketIndex].amm;
       && Outcome(p, amm, direction, quote, a.user.collateral, p', t.accounts.user.collateral)
       && t.riskIncreasing == RaisesRisk(p, amm, direction, quote)
       && t.quote == UsedQuote(p, amm, direction, quote)
       && t.base == Abs(p'.baseAssetAmount - p.baseAssetAmount)
  }

  // ----- The three trades

  lemma IncreaseOutcome(a: I.Accounts, j: nat, direction: PositionDirection, quote: u128, now: i64)
    requires OnCurve(a, j) && I.IncreaseSlot(a, j, direction, quote, now).Ok?
    ensures var (b, acquired) := I.IncreaseSlot(a, j, direction, quote, now).value;
            && OneSlotChanged(a, j, b) && AllTraded(a.markets, b.markets)
            && Added(a.user.positions[j], direction, quote, a.user.collateral, b.user.positions[j], b.user.collateral)
            && b.user.positions[j].baseAssetAmount == a.user.positions[j].baseAssetAmount + acquired
            && (quote == 0 ==> b.user.positions[j] == a.user.positions[j])
  {
    var p := a.user.positions[j];
    var m := a.markets[p.marketIndex];
    IncreaseEffect(a, j, direction, quote, now);
    if quote != 0 {
      IncreaseShape(direction, quote, m, p, now);
      AcquiredSign(m.amm, quote, QuoteSwapDirection(direction), now, None);
    }
  }

  lemma ReduceOutcome(a: I.Accounts, j: nat, direction: PositionDirection, quote: u128, now: i64)
    requires OnCurve(a, j) && I.ReduceSlot(a, j, direction, quote, now, None).Ok?
    requires var p := a.user.positions[j];
             Guarded(quote, a.markets[p.marketIndex], p) && !Adds(p, direction)
    ensures var (b, swapped) := I.ReduceSlot(a, j, direction, quote, now, None).value;
            && OneSlotChanged(a, j, b) && AllTraded(a.markets, b.markets)
            && Reduced(a.user.positions[j], quote, a.user.collateral, b.user.positions[j], b.user.collateral)
            && b.user.positions[j].baseAssetAmount == a.user.positions[j].baseAssetAmount + swapped
  {
    var p, c := a.user.positions[j], a.user.collateral;
    var m := a.markets[p.marketIndex];
    ReduceEffect(a, j, direction, quote, now, None);
    NoSignFlip(quote, c, m, p, now, None);
    ReduceShape(direction, quote, c, m, p, now, None);
    AcquiredSign(m.amm, quote, QuoteSwapDirection(direction), now, None);
  }

  lemma CloseOutcome(a: I.Accounts, j: nat, now: i64)
    requires OnCurve(a, j) && a.user.positions[j].IsOpen() && I.CloseSlot(a, j, now).Ok?
    ensures var p, (b, closedAt) := a.user.positions[j], I.CloseSlot(a, j, now).value;
            var amm := a.markets[p.marketIndex].amm;
            && OneSlotChanged(a, j, b) && AllTraded(a.markets, b.markets) && OnCurve(b, j)
            && ValueAndPnl(p.baseAssetAmount, p.quoteAssetAmount, amm).Ok?
            && closedAt == ValueAndPnl(p.baseAssetAmount, p.quoteAssetAmount, amm).value.0
            && b.user.collateral
               == Max(a.user.collateral + ValueAndPnl(p.baseAssetAmount, p.quoteAssetAmount, amm).value.1, 0)
            && b.user.positions[j] == Position(p.marketIndex, 0, 0, 0, 0)
  {
    var p := a.user.positions[j];
    var m := a.markets[p.marketIndex];
    CloseEffect(a, j, now);
    CloseSound(a.user.collateral, m, p, now);
    CloseRealisesValuation(a.user.collateral, m, p, now);
    CloseShape(a.user.collateral, m, p, now);
  }

  lemma FlipOutcome(a: I.Accounts, j: nat, direction: PositionDirection, quote: u128, value: u128, now: i64)
    requires OnCurve(a, j) && a.user.positions[j].IsOpen() && !Adds(a.user.positions[j], direction) && value <= quote
    requires var p := a.user.positions[j];
             && ValueAndPnl(p.baseAssetAmount, p.quoteAssetAmount, a.markets[p.marketIndex].amm).Ok?
             && ValueAndPnl(p.baseAssetAmount, p.quoteAssetAmount, a.markets[p.marketIndex].amm).value.0 == value
    requires I.Flip(a, j, direction, quote, value, now).Ok?
    ensures var p, t := a.user.positions[j], I.Flip(a, j, direction, quote, value, now).value;
            && OneSlotChanged(a, j, t.accounts) && AllTraded(a.markets, t.accounts.markets)
            && Reversed(direction, value, ValueAndPnl(p.baseAssetAmount, p.quoteAssetAmount, a.markets[p.marketIndex].amm).value.1,
                        quote, a.user.collateral, t.accounts.user.positions[j], t.accounts.user.collateral)
            && t.quote == quote && (t.riskIncreasing <==> value <= quote - value)
            && t.base == Abs(t.accounts.user.positions[j].baseAssetAmount - p.baseAssetAmount)
  {
    var rest, size := FitU128(quote - value).value, Abs(a.user.positions[j].baseAssetAmount);
    var closed := I.CloseSlot(a, j, now).value.0;
    CloseOutcome(a, j, now);
    assert I.Flip(a, j, direction, quote, value, now) == I.Reverse(closed, j, direction, quote, rest, value, size, now);
    IncreaseOutcome(closed, j, direction, rest, now);
  }

  /** A trade does what it reports. */
  lemma TradeReports(a: I.Accounts, j: nat, direction: PositionDirection, quote: u128, now: i64)
    requires OnCurve(a, j) && I.Trade(a, j, direction, quote, now).Ok?
    ensures Reports(a, j, direction, quote, I.Trade(a, j, direction, quote, now).value)
  {
    var p := a.user.positions[j];
    assert Adds(p, direction) == I.AddsTo(p.baseAssetAmount, direction);
    if Adds(p, direction) {
      IncreaseOutcome(a, j, direction, quote, now);
    } else {
      TradeAgainstCases(a, j, direction, quote, now);
      var (value, used) := Against(p, a.markets[p.marketIndex].amm, quote);
      if value > used {
        ReduceOutcome(a, j, direction, used, now);
      } else {
        FlipOutcome(a, j, direction, used, value, now);
      }
    }
  }

  // ----- How a reduction apportions the entry notional

  /** What is left of an entry notional is the share of the base that is left, rounded up. */
  predicate Apportioned(p: Position, p': Position) {
    var size, left := Abs(p.baseAssetAmount), Abs(p'.baseAssetAmount);
    p.quoteAssetAmount * left <= p'.quoteAssetAmount * size < p.quoteAssetAmount * left + size
  }

  lemma ShareLeft(entry: nat, size: nat, left: nat, closed: nat)
    requires 0 < size && left <= size && closed == entry * (size - left) / size
    ensures entry * left <= (entry - closed) * size < entry * left + size
  {
    FloorBounds(entry * (size - left), size);
    assert entry * (size - left) == entry * size - entry * left;
    assert (entry - closed) * size == entry * size - closed * size;
  }

  /** A guarded reduction never lowers the average entry price of what stays open, and raises it by less
      than one unit on the whole. */
  lemma ReduceApportions(quote: u128, collateral: u128, m: Market, p: Position, now: i64, mark: Option<u128>)
    requires TightCurve(m.amm) && 1 <= m.amm.minimumTradeSize && Guarded(quote, m, p)
    requires Reduce(DirectionToClose(p.baseAssetAmount), quote, collateral, m, p, now, mark).Ok?
    ensures Apportioned(p, Reduce(DirectionToClose(p.baseAssetAmount), quote, collateral, m, p, now, mark).value.1)
  {
    var direction := DirectionToClose(p.baseAssetAmount);
    var p' := Reduce(direction, quote, collateral, m, p, now, mark).value.1;
    NoSignFlip(quote, collateral, m, p, now, mark);
    ReduceShape(direction, quote, collateral, m, p, now, mark);
    AcquiredSign(m.amm, quote, QuoteSwapDirection(direction), now, mark);
    ShareLeft(p.quoteAssetAmount, Abs(p.baseAssetAmount), Abs(p'.baseAssetAmount), p.quoteAssetAmount - p'.quoteAssetAmount);
  }
}
