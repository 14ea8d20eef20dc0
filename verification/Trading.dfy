/** The operations on one position: increase, reduce and close. They move the curve, the market's
    aggregates, the position and, through the realised pnl, the user's collateral. */
module Trading {
  import opened Numeric
  import opened State
  import opened Curve
  import opened Twap

  // ----- Swaps on the market maker

  /** Moves the quote reserve by a quote amount; the base acquired is negative for a sale. */
  function SwapQuote(a: Amm, quote: u128, direction: SwapDirection): Result<(Amm, i128)> {
    var reserve :- AssetToReserve(quote, a.pegMultiplier);
    var _ :- Need(reserve >= a.minimumTradeSize, TradeSizeTooSmall);
    var (base', quote') :- SwapOutput(reserve, a.quoteAssetReserve, direction, a.sqrtK);
    var before :- CastI128(a.baseAssetReserve);
    var after :- CastI128(base');
    var acquired :- FitI128(before - after);
    Ok((a.(baseAssetReserve := base', quoteAssetReserve := quote'), acquired))
  }

  function SwapQuoteAsset(a: Amm, quote: u128, direction: SwapDirection, now: i64, mark: Option<u128>)
    : Result<(Amm, i128)>
  {
    var averaged :- UpdateMarkTwap(a, now, mark);
    SwapQuote(averaged, quote, direction)
  }

  /** Moves the base reserve by a base amount; the value is in quote units. */
  function SwapBase(a: Amm, base: u128, direction: SwapDirection): Result<(Amm, u128)> {
    var (quote', base') :- SwapOutput(base, a.baseAssetReserve, direction, a.sqrtK);
    var value :- QuoteSwapped(a.quoteAssetReserve, quote', direction, a.pegMultiplier);
    Ok((a.(baseAssetReserve := base', quoteAssetReserve := quote'), value))
  }

  function SwapBaseAsset(a: Amm, base: u128, direction: SwapDirection, now: i64): Result<(Amm, u128)> {
    var averaged :- UpdateMarkTwap(a, now, None);
    SwapBase(averaged, base, direction)
  }

  // ----- Valuation

  /** Profit of leaving at `exit` what was entered at `entry`. The exit value is rounded down, which
      would favour a short by up to one unit; a short is charged that unit. */
  function CalculatePnl(exit: u128, entry: u128, toClose: SwapDirection): Result<i128> {
    var exit :- CastI128(exit);
    var entry :- CastI128(entry);
    if toClose.Add? then FitI128(exit - entry) else
      var gross :- FitI128(entry - exit);
      FitI128(gross - 1)
  }

  function DirectionToClose(base: i128): PositionDirection {
    if base > 0 then Short else Long
  }

  function SwapDirectionToClose(base: i128): SwapDirection {
    if base >= 0 then Add else Remove
  }

  /** What closing a position would bring in or cost, and the profit against its entry notional. */
  function ValueAndPnl(base: i128, entry: u128, a: Amm): Result<(u128, i128)> {
    if base == 0 then Ok((0, 0)) else
      var direction := SwapDirectionToClose(base);
      var size :- FitU128(Abs(base));
      var (quote', base') :- SwapOutput(size, a.baseAssetReserve, direction, a.sqrtK);
      var value :- QuoteSwapped(a.quoteAssetReserve, quote', direction, a.pegMultiplier);
      var pnl :- CalculatePnl(value, entry, direction);
      Ok((value, pnl))
  }

  /** Collateral after a profit or loss; a loss beyond it leaves zero. */
  function UpdatedCollateral(collateral: u128, pnl: i128): Result<u128> {
    if pnl < 0 && Abs(pnl) > collateral then Ok(0) else FitU128(collateral + pnl)
  }

  // ----- Operations on one position

  function QuoteSwapDirection(direction: PositionDirection): SwapDirection {
    if direction.Long? then Add else Remove
  }

  function SideRate(a: Amm, direction: PositionDirection): i128 {
    if direction.Long? then a.cumulativeFundingRateLong else a.cumulativeFundingRateShort
  }

  /** Adds a base amount to the market's total and to the side the position is now on. */
  function Book(m: Market, side: int, delta: int): Result<Market> {
    var net :- FitI128(m.baseAssetAmount + delta);
    if side > 0 then
      var longs :- FitI128(m.baseAssetAmountLong + delta);
      Ok(m.(baseAssetAmount := net, baseAssetAmountLong := longs))
    else
      var shorts :- FitI128(m.baseAssetAmountShort + delta);
      Ok(m.(baseAssetAmount := net, baseAssetAmountShort := shorts))
  }

  /** Before the swap of an increase: a position that opens starts at its side's rate and counts in
      the open interest; the entry notional grows. */
  function Enter(direction: PositionDirection, quote: u128, m: Market, p: Position): Result<(Market, Position)> {
    var interest :- FitU128(m.openInterest + (if p.baseAssetAmount == 0 then 1 else 0));
    var entry :- FitU128(p.quoteAssetAmount + quote);
    var rate := if p.baseAssetAmount == 0 then SideRate(m.amm, direction) else p.lastCumulativeFundingRate;
    Ok((m.(openInterest := interest), p.(quoteAssetAmount := entry, lastCumulativeFundingRate := rate)))
  }

  /** Adds the base acquired to a position and to its market. */
  function Acquire(m: Market, p: Position, acquired: i128): Result<(Market, Position)> {
    var base :- FitI128(p.baseAssetAmount + acquired);
    var booked :- Book(m, base, acquired);
    Ok((booked, p.(baseAssetAmount := base)))
  }

  /** Opens a position or adds to one: new market, new position and base acquired. */
  function Increase(direction: PositionDirection, quote: u128, m: Market, p: Position, now: i64)
    : Result<(Market, Position, i128)>
  {
    if quote == 0 then Ok((m, p, 0)) else
      var (m, p) :- Enter(direction, quote, m, p);
      var (amm, acquired) :- SwapQuoteAsset(m.amm, quote, QuoteSwapDirection(direction), now, None);
      var (m', p') :- Acquire(m.(amm := amm), p, acquired);
      Ok((m', p', acquired))
  }

  /** The share of the entry notional that belongs to the part of a position being closed. */
  function EntryClosed(p: Position, remaining: i128): Result<u128> {
    var change :- FitI128(p.baseAssetAmount - remaining);
    var product :- FitU128(p.quoteAssetAmount * Abs(change));
    DivU(product, Abs(p.baseAssetAmount))
  }

  /** The profit realised by closing part of a position for `quote`, by the side that remains. */
  function ReducePnl(remaining: i128, quote: u128, closed: u128): Result<i128> {
    if remaining > 0 then
      var quote :- CastI128(quote);
      var closed :- CastI128(closed);
      FitI128(quote - closed)
    else
      var closed :- CastI128(closed);
      var quote :- CastI128(quote);
      FitI128(closed - quote)
  }

  /** The entry notional and the collateral once a part of a position has been closed for `quote`. */
  function RealiseReduction(p: Position, remaining: i128, quote: u128, collateral: u128): Result<(u128, u128)> {
    var closed :- EntryClosed(p, remaining);
    var entry :- FitU128(p.quoteAssetAmount - closed);
    var pnl :- ReducePnl(remaining, quote, closed);
    var collateral' :- UpdatedCollateral(collateral, pnl);
    Ok((entry, collateral'))
  }

  /** Takes the base swapped off a position and its market, which loses a position that ends flat. */
  function Release(m: Market, p: Position, swapped: i128): Result<(Market, Position)> {
    var base :- FitI128(p.baseAssetAmount + swapped);
    var interest :- FitU128(m.openInterest - (if base == 0 then 1 else 0));
    var booked :- Book(m.(openInterest := interest), base, swapped);
    Ok((booked, p.(baseAssetAmount := base)))
  }

  /** The first half of a reduction: new market, smaller position and base swapped. */
  function SwapOff(direction: PositionDirection, quote: u128, m: Market, p: Position, now: i64, mark: Option<u128>)
    : Result<(Market, Position, i128)>
  {
    var (amm, swapped) :- SwapQuoteAsset(m.amm, quote, QuoteSwapDirection(direction), now, mark);
    var (released, remaining) :- Release(m.(amm := amm), p, swapped);
    Ok((released, remaining, swapped))
  }

  /** Closes part of a position: new market, new position, new collateral and base swapped. */
  function Reduce(direction: PositionDirection, quote: u128, collateral: u128, m: Market, p: Position,
                  now: i64, mark: Option<u128>)
    : Result<(Market, Position, u128, i128)>
  {
    var (released, remaining, swapped) :- SwapOff(direction, quote, m, p, now, mark);
    var (entry, collateral') :- RealiseReduction(p, remaining.baseAssetAmount, quote, collateral);
    Ok((released, remaining.(quoteAssetAmount := entry), collateral', swapped))
  }

  /** Takes a position off its market and clears its slot. */
  function Retire(m: Market, p: Position): Result<(Market, Position)> {
    var interest :- FitU128(m.openInterest - 1);
    var booked :- Book(m.(openInterest := interest), p.baseAssetAmount, 0 - p.baseAssetAmount);
    Ok((booked,
        p.(baseAssetAmount := 0, quoteAssetAmount := 0, lastCumulativeFundingRate := 0, lastFundingRateTs := 0)))
  }

  /** Closes a whole position: new market, new position, new collateral and the value it closed at. */
  function Close(collateral: u128, m: Market, p: Position, now: i64): Result<(Market, Position, u128, u128)> {
    if p.baseAssetAmount == 0 then Ok((m, p, collateral, 0)) else
      var direction := SwapDirectionToClose(p.baseAssetAmount);
      var size :- FitU128(Abs(p.baseAssetAmount));
      var (amm, value) :- SwapBaseAsset(m.amm, size, direction, now);
      var pnl :- CalculatePnl(value, p.quoteAssetAmount, direction);
      var collateral' :- UpdatedCollateral(collateral, pnl);
      var (retired, cleared) :- Retire(m.(amm := amm), p);
      Ok((retired, cleared, collateral', value))
  }
}
