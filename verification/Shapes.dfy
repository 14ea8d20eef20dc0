/** What the successful operations on a curve, a market and a position did, without the range checks
    they passed on the way. */
module Shapes {
  import opened Numeric
  import opened State
  import opened Curve
  import opened Twap
  import opened Trading

  /** A quote amount in reserve units. */
  function Reserves(quote: nat, peg: int): nat
    requires 0 < peg
  {
    quote * QUOTE_UNIT / peg
  }

  lemma SwapQuoteMoves(a: Amm, quote: u128, direction: SwapDirection)
    requires SwapQuote(a, quote, direction).Ok?
    ensures var (a', acquired) := SwapQuote(a, quote, direction).value;
            && 0 < a.pegMultiplier
            && a.minimumTradeSize <= Reserves(quote, a.pegMultiplier)
            && a'.quoteAssetReserve == a.quoteAssetReserve
                 + (if direction.Add? then Reserves(quote, a.pegMultiplier) else 0 - Reserves(quote, a.pegMultiplier))
            && 0 < a'.quoteAssetReserve
            && a'.baseAssetReserve == a.sqrtK * a.sqrtK / a'.quoteAssetReserve
            && acquired == a.baseAssetReserve - a'.baseAssetReserve
            && a' == a.(baseAssetReserve := a'.baseAssetReserve, quoteAssetReserve := a'.quoteAssetReserve)
  {
    SwapShape(AssetToReserve(quote, a.pegMultiplier).value, a.quoteAssetReserve, direction, a.sqrtK);
  }

  lemma SwapQuoteShape(a: Amm, quote: u128, direction: SwapDirection, now: i64, mark: Option<u128>)
    requires SwapQuoteAsset(a, quote, direction, now, mark).Ok?
    ensures var (a', acquired) := SwapQuoteAsset(a, quote, direction, now, mark).value;
            && 0 < a.pegMultiplier
            && a.minimumTradeSize <= Reserves(quote, a.pegMultiplier)
            && a'.quoteAssetReserve == a.quoteAssetReserve
                 + (if direction.Add? then Reserves(quote, a.pegMultiplier) else 0 - Reserves(quote, a.pegMultiplier))
            && 0 < a'.quoteAssetReserve
            && a'.baseAssetReserve == a.sqrtK * a.sqrtK / a'.quoteAssetReserve
            && acquired == a.baseAssetReserve - a'.baseAssetReserve
            && a' == a.(baseAssetReserve := a'.baseAssetReserve, quoteAssetReserve := a'.quoteAssetReserve,
                        lastMarkPriceTwap := a'.lastMarkPriceTwap, lastMarkPriceTwapTs := now)
  {
    var averaged := UpdateMarkTwap(a, now, mark).value;
    MarkTwapShape(a, now, mark);
    SwapQuoteMoves(averaged, quote, direction);
  }

  lemma SwapBaseShape(a: Amm, base: u128, direction: SwapDirection, now: i64)
    requires SwapBaseAsset(a, base, direction, now).Ok?
    ensures var (a', value) := SwapBaseAsset(a, base, direction, now).value;
            && a'.baseAssetReserve == a.baseAssetReserve + (if direction.Add? then base else 0 - base)
            && 0 < a'.baseAssetReserve
            && a'.quoteAssetReserve == a.sqrtK * a.sqrtK / a'.baseAssetReserve
            && a' == a.(baseAssetReserve := a'.baseAssetReserve, quoteAssetReserve := a'.quoteAssetReserve,
                        lastMarkPriceTwap := a'.lastMarkPriceTwap, lastMarkPriceTwapTs := now)
            && QuoteSwapped(a.quoteAssetReserve, a'.quoteAssetReserve, direction, a.pegMultiplier) == Ok(value)
            && SwapOutput(base, a.baseAssetReserve, direction, a.sqrtK) == Ok((a'.quoteAssetReserve, a'.baseAssetReserve))
  {
    MarkTwapShape(a, now, None);
    SwapShape(base, a.baseAssetReserve, direction, a.sqrtK);
  }

  /** A booked delta lands on the total and on one side. */
  lemma BookShape(m: Market, side: int, delta: int)
    requires Book(m, side, delta).Ok?
    ensures var m' := Book(m, side, delta).value;
            && m' == m.(baseAssetAmount := m'.baseAssetAmount,
                        baseAssetAmountLong := m'.baseAssetAmountLong,
                        baseAssetAmountShort := m'.baseAssetAmountShort)
            && m'.baseAssetAmount == m.baseAssetAmount + delta
            && m'.baseAssetAmountLong == m.baseAssetAmountLong + (if side > 0 then delta else 0)
            && m'.baseAssetAmountShort == m.baseAssetAmountShort + (if side > 0 then 0 else delta)
  {
  }

  lemma IncreaseShape(direction: PositionDirection, quote: u128, m: Market, p: Position, now: i64)
    requires quote != 0 && Increase(direction, quote, m, p, now).Ok?
    ensures var (m', p', acquired) := Increase(direction, quote, m, p, now).value;
            && SwapQuoteAsset(m.amm, quote, QuoteSwapDirection(direction), now, None) == Ok((m'.amm, acquired))
            && p' == p.(baseAssetAmount := p.baseAssetAmount + acquired,
                        quoteAssetAmount := p.quoteAssetAmount + quote,
                        lastCumulativeFundingRate :=
                          if p.IsOpen() then p.lastCumulativeFundingRate else SideRate(m.amm, direction))
            && m'.openInterest == m.openInterest + (if p.IsOpen() then 0 else 1)
            && Book(m.(amm := m'.amm, openInterest := m'.openInterest), p'.baseAssetAmount, acquired) == Ok(m')
  {
  }

  lemma ReduceShape(direction: PositionDirection, quote: u128, collateral: u128, m: Market, p: Position,
                    now: i64, mark: Option<u128>)
    requires Reduce(direction, quote, collateral, m, p, now, mark).Ok?
    ensures var (m', p', collateral', swapped) := Reduce(direction, quote, collateral, m, p, now, mark).value;
            && SwapQuoteAsset(m.amm, quote, QuoteSwapDirection(direction), now, mark) == Ok((m'.amm, swapped))
            && p'.baseAssetAmount == p.baseAssetAmount + swapped
            && EntryClosed(p, p'.baseAssetAmount) == Ok(p.quoteAssetAmount - p'.quoteAssetAmount)
            && p' == p.(baseAssetAmount := p'.baseAssetAmount, quoteAssetAmount := p'.quoteAssetAmount)
            && m'.openInterest == m.openInterest - (if p'.IsOpen() then 0 else 1)
            && Book(m.(amm := m'.amm, openInterest := m'.openInterest), p'.baseAssetAmount, swapped) == Ok(m')
            && ReducePnl(p'.baseAssetAmount, quote, p.quoteAssetAmount - p'.quoteAssetAmount).Ok?
            && UpdatedCollateral(collateral,
                 ReducePnl(p'.baseAssetAmount, quote, p.quoteAssetAmount - p'.quoteAssetAmount).value)
               == Ok(collateral')
  {
  }

  lemma CloseShape(collateral: u128, m: Market, p: Position, now: i64)
    requires p.IsOpen() && Close(collateral, m, p, now).Ok?
    ensures var (m', p', collateral', value) := Close(collateral, m, p, now).value;
            var direction := SwapDirectionToClose(p.baseAssetAmount);
            && SwapBaseAsset(m.amm, Abs(p.baseAssetAmount), direction, now) == Ok((m'.amm, value))
            && CalculatePnl(value, p.quoteAssetAmount, direction).Ok?
            && UpdatedCollateral(collateral, CalculatePnl(value, p.quoteAssetAmount, direction).value) == Ok(collateral')
            && p' == Position(p.marketIndex, 0, 0, 0, 0)
            && m'.openInterest == m.openInterest - 1
            && Book(m.(amm := m'.amm, openInterest := m'.openInterest), p.baseAssetAmount, 0 - p.baseAssetAmount) == Ok(m')
  {
  }
}
