/** The accounts the program keeps, and the controllers that update their fields in place. Each
    method is proved against the function on values that the theorems are about. When a method
    fails, the runtime discards every write of the transaction, so nothing is promised about fields. */
module Accounts {
  import opened Numeric
  import opened State
  import opened Curve
  import T = Twap
  import Tr = Trading

  /** The market maker of one market. */
  class AmmAccount {
    var baseAssetReserve: u128
    var quoteAssetReserve: u128
    var sqrtK: u128
    var pegMultiplier: u128
    var minimumTradeSize: u128
    var cumulativeFundingRateLong: i128
    var cumulativeFundingRateShort: i128
    var lastFundingRate: i128
    var lastFundingRateTs: i64
    var fundingPeriod: i64
    var lastOraclePrice: i128
    var lastOraclePriceTwap: i128
    var lastOraclePriceTwapTs: i64
    var lastMarkPriceTwap: u128
    var lastMarkPriceTwapTs: i64
    var totalFee: u128
    var totalFeeMinusDistributions: u128
    var totalFeeWithdrawn: u128

    function State(): Amm
      reads this
    {
      Amm(baseAssetReserve, quoteAssetReserve, sqrtK, pegMultiplier, minimumTradeSize,
          cumulativeFundingRateLong, cumulativeFundingRateShort, lastFundingRate, lastFundingRateTs, fundingPeriod,
          lastOraclePrice, lastOraclePriceTwap, lastOraclePriceTwapTs, lastMarkPriceTwap, lastMarkPriceTwapTs,
          totalFee, totalFeeMinusDistributions, totalFeeWithdrawn)
    }

    method UpdateMarkTwap(now: i64, precomputed: Option<u128>) returns (r: Result<u128>)
      modifies this
      ensures match T.UpdateMarkTwap(old(State()), now, precomputed)
              case Ok(a) => r == Ok(a.lastMarkPriceTwap) && State() == a
              case Err(e) => r == Err(e) && State() == old(State())
    {
      var average :- T.NewMarkTwap(State(), now, precomputed);
      lastMarkPriceTwap := average;
      lastMarkPriceTwapTs := now;
      r := Ok(average);
    }

    method UpdateOracleTwap(now: i64, oraclePrice: i128) returns (r: Result<i128>)
      modifies this
      ensures match T.UpdateOracleTwap(old(State()), now, oraclePrice)
              case Ok(a) => r == Ok(a.lastOraclePriceTwap) && State() == a
              case Err(e) => r == Err(e) && State() == old(State())
    {
      var capped :- T.CappedOraclePrice(State(), oraclePrice);
      if capped > 0 && oraclePrice > 0 {
        var average :- T.NewOracleTwap(State(), now, capped);
        lastOraclePrice := capped;
        lastOraclePriceTwap := average;
        lastOraclePriceTwapTs := now;
        return Ok(average);
      }
      r := Ok(lastOraclePriceTwap);
    }

    method SwapQuoteAsset(quote: u128, direction: SwapDirection, now: i64, mark: Option<u128>)
      returns (r: Result<i128>)
      modifies this
      ensures match Tr.SwapQuoteAsset(old(State()), quote, direction, now, mark)
              case Ok((a, acquired)) => r == Ok(acquired) && State() == a
              case Err(e) => r == Err(e)
    {
      var _ :- UpdateMarkTwap(now, mark);
      var reserve :- AssetToReserve(quote, pegMultiplier);
      if reserve < minimumTradeSize {
        return Err(TradeSizeTooSmall);
      }
      var initialBaseReserve := baseAssetReserve;
      var swapped :- SwapOutput(reserve, quoteAssetReserve, direction, sqrtK);
      baseAssetReserve := swapped.0;
      quoteAssetReserve := swapped.1;
      var before :- CastI128(initialBaseReserve);
      var after :- CastI128(baseAssetReserve);
      r := FitI128(before - after);
    }

    method SwapBaseAsset(base: u128, direction: SwapDirection, now: i64) returns (r: Result<u128>)
      modifies this
      ensures match Tr.SwapBaseAsset(old(State()), base, direction, now)
              case Ok((a, value)) => r == Ok(value) && State() == a
              case Err(e) => r == Err(e)
    {
      var _ :- UpdateMarkTwap(now, None);
      var initialQuoteReserve := quoteAssetReserve;
      var swapped :- SwapOutput(base, baseAssetReserve, direction, sqrtK);
      baseAssetReserve := swapped.1;
      quoteAssetReserve := swapped.0;
      r := QuoteSwapped(initialQuoteReserve, quoteAssetReserve, direction, pegMultiplier);
    }
  }

  /** One market: the aggregates over all users, and its market maker. */
  class MarketAccount {
    var initialized: bool
    var baseAssetAmountLong: i128
    var baseAssetAmountShort: i128
    var baseAssetAmount: i128
    var openInterest: u128
    const amm: AmmAccount

    /** A zeroed account around the space of its market maker. */
    constructor (amm: AmmAccount)
      ensures this.amm == amm && !initialized
      ensures baseAssetAmountLong == baseAssetAmountShort == baseAssetAmount == 0 && openInterest == 0
    {
      this.amm := amm;
      initialized := false;
      baseAssetAmountLong, baseAssetAmountShort, baseAssetAmount, openInterest := 0, 0, 0, 0;
    }

    function State(): Market
      reads this, amm
    {
      Market(initialized, baseAssetAmountLong, baseAssetAmountShort, baseAssetAmount, openInterest, amm.State())
    }

    /** Moves the total, and the side a position is on, by a base amount. */
    method Book(side: i128, delta: int) returns (r: Result<()>)
      modifies this
      ensures match Tr.Book(old(State()), side, delta)
              case Ok(m) => r == Ok(()) && State() == m
              case Err(e) => r == Err(e)
    {
      baseAssetAmount :- FitI128(baseAssetAmount + delta);
      if side > 0 {
        baseAssetAmountLong :- FitI128(baseAssetAmountLong + delta);
      } else {
        baseAssetAmountShort :- FitI128(baseAssetAmountShort + delta);
      }
      r := Ok(());
    }
  }

  /** One slot of a user's positions. */
  class PositionAccount {
    var marketIndex: u64
    var baseAssetAmount: i128
    var quoteAssetAmount: u128
    var lastCumulativeFundingRate: i128
    var lastFundingRateTs: i64

    function State(): Position
      reads this
    {
      Position(marketIndex, baseAssetAmount, quoteAssetAmount, lastCumulativeFundingRate, lastFundingRateTs)
    }
  }

  /** A user: his collateral and his slots. */
  class UserAccount {
    var collateral: u128
    const positions: seq<PositionAccount>

    constructor (positions: seq<PositionAccount>)
      ensures this.positions == positions && collateral == 0
    {
      this.positions := positions;
      collateral := 0;
    }

    /** The slots are different accounts. */
    ghost predicate Valid() {
      forall i, j :: 0 <= i < j < |positions| ==> positions[i] != positions[j]
    }

    function Slots(): (s: seq<Position>)
      reads positions
      ensures |s| == |positions|
    {
      seq(|positions|, i requires 0 <= i < |positions| reads positions => positions[i].State())
    }

    function State(): User
      reads this, positions
    {
      User(collateral, Slots())
    }
  }

  /** Different markets have different accounts. */
  ghost predicate Distinct(markets: seq<MarketAccount>) {
    forall i, j :: 0 <= i < j < |markets| ==> markets[i] != markets[j] && markets[i].amm != markets[j].amm
  }

  function States(markets: seq<MarketAccount>): (s: seq<Market>)
    reads markets, set m | m in markets :: m.amm
    ensures |s| == |markets|
  {
    seq(|markets|, i requires 0 <= i < |markets| reads markets, set m | m in markets :: m.amm => markets[i].State())
  }

  // ----- controller/position.rs

  /** The first third of an increase, before the swap. */
  method Enter(direction: PositionDirection, quote: u128, market: MarketAccount, position: PositionAccount)
    returns (r: Result<()>)
    modifies market, position
    ensures match Tr.Enter(direction, quote, old(market.State()), old(position.State()))
            case Ok((m, p)) => r == Ok(()) && market.State() == m && position.State() == p
            case Err(e) => r == Err(e)
  {
    if position.baseAssetAmount == 0 {
      position.lastCumulativeFundingRate :=
        if direction.Long? then market.amm.cumulativeFundingRateLong else market.amm.cumulativeFundingRateShort;
      market.openInterest :- FitU128(market.openInterest + 1);
    }
    position.quoteAssetAmount :- FitU128(position.quoteAssetAmount + quote);
    r := Ok(());
  }

  /** The last third of an increase: the size of the position on the market and on the user. */
  method Acquire(market: MarketAccount, position: PositionAccount, acquired: i128) returns (r: Result<()>)
    modifies market, position
    ensures match Tr.Acquire(old(market.State()), old(position.State()), acquired)
            case Ok((m, p)) => r == Ok(()) && market.State() == m && position.State() == p
            case Err(e) => r == Err(e)
  {
    position.baseAssetAmount :- FitI128(position.baseAssetAmount + acquired);
    var _ :- market.Book(position.baseAssetAmount, acquired);
    r := Ok(());
  }

  method Increase(direction: PositionDirection, quote: u128, market: MarketAccount, position: PositionAccount, now: i64)
    returns (r: Result<i128>)
    modifies market, market.amm, position
    ensures match Tr.Increase(direction, quote, old(market.State()), old(position.State()), now)
            case Ok((m, p, acquired)) => r == Ok(acquired) && market.State() == m && position.State() == p
            case Err(e) => r == Err(e)
  {
    if quote == 0 {
      return Ok(0);
    }
    var _ :- Enter(direction, quote, market, position);
    var acquired :- market.amm.SwapQuoteAsset(quote, Tr.QuoteSwapDirection(direction), now, None);
    var _ :- Acquire(market, position, acquired);
    r := Ok(acquired);
  }

  /** The size of a reduced position on the market and on the user. */
  method Release(market: MarketAccount, position: PositionAccount, swapped: i128) returns (r: Result<()>)
    modifies market, position
    ensures match Tr.Release(old(market.State()), old(position.State()), swapped)
            case Ok((m, p)) => r == Ok(()) && market.State() == m && position.State() == p
            case Err(e) => r == Err(e)
  {
    position.baseAssetAmount :- FitI128(position.baseAssetAmount + swapped);
    market.openInterest :- FitU128(market.openInterest - (if position.baseAssetAmount == 0 then 1 else 0));
    var _ :- market.Book(position.baseAssetAmount, swapped);
    r := Ok(());
  }

  /** The second half of a reduction, once the base amount has changed. */
  method RealiseReduction(baseBefore: i128, quote: u128, user: UserAccount, position: PositionAccount)
    returns (r: Result<()>)
    modifies user, position
    ensures var before := old(position.State()).(baseAssetAmount := baseBefore);
            match Tr.RealiseReduction(before, old(position.baseAssetAmount), quote, old(user.collateral))
            case Ok((entry, collateral)) =>
              && r == Ok(()) && user.collateral == collateral
              && position.State() == old(position.State()).(quoteAssetAmount := entry)
            case Err(e) => r == Err(e)
  {
    var change :- FitI128(baseBefore - position.baseAssetAmount);
    var product :- FitU128(position.quoteAssetAmount * Abs(change));
    var closed :- DivU(product, Abs(baseBefore));
    ghost var before := position.State().(baseAssetAmount := baseBefore);
    assert Tr.EntryClosed(before, position.baseAssetAmount) == Ok(closed);
    position.quoteAssetAmount :- FitU128(position.quoteAssetAmount - closed);
    var pnl :- Tr.ReducePnl(position.baseAssetAmount, quote, closed);
    user.collateral :- Tr.UpdatedCollateral(user.collateral, pnl);
    r := Ok(());
  }

  /** The first half of a reduction. */
  method SwapOff(direction: PositionDirection, quote: u128, market: MarketAccount, position: PositionAccount,
                 now: i64, mark: Option<u128>)
    returns (r: Result<i128>)
    modifies market, market.amm, position
    ensures match Tr.SwapOff(direction, quote, old(market.State()), old(position.State()), now, mark)
            case Ok((m, p, swapped)) => r == Ok(swapped) && market.State() == m && position.State() == p
            case Err(e) => r == Err(e)
  {
    var swapped :- market.amm.SwapQuoteAsset(quote, Tr.QuoteSwapDirection(direction), now, mark);
    var _ :- Release(market, position, swapped);
    r := Ok(swapped);
  }

  method Reduce(direction: PositionDirection, quote: u128, user: UserAccount, market: MarketAccount,
                position: PositionAccount, now: i64, mark: Option<u128>)
    returns (r: Result<i128>)
    modifies user, market, market.amm, position
    ensures match Tr.Reduce(direction, quote, old(user.collateral), old(market.State()), old(position.State()), now, mark)
            case Ok((m, p, collateral, swapped)) =>
              && r == Ok(swapped) && market.State() == m && position.State() == p && user.collateral == collateral
            case Err(e) => r == Err(e)
  {
    var baseBefore := position.baseAssetAmount;
    var swapped :- SwapOff(direction, quote, market, position, now, mark);
    var _ :- RealiseReduction(baseBefore, quote, user, position);
    r := Ok(swapped);
  }

  /** The second half of a close, once the collateral has been updated. */
  method Retire(market: MarketAccount, position: PositionAccount) returns (r: Result<()>)
    modifies market, position
    ensures match Tr.Retire(old(market.State()), old(position.State()))
            case Ok((m, p)) => r == Ok(()) && market.State() == m && position.State() == p
            case Err(e) => r == Err(e)
  {
    position.lastCumulativeFundingRate := 0;
    position.lastFundingRateTs := 0;
    market.openInterest :- FitU128(market.openInterest - 1);
    position.quoteAssetAmount := 0;
    var _ :- market.Book(position.baseAssetAmount, 0 - position.baseAssetAmount);
    position.baseAssetAmount := 0;
    r := Ok(());
  }

  method Close(user: UserAccount, market: MarketAccount, position: PositionAccount, now: i64)
    returns (r: Result<(u128, i128)>)
    modifies user, market, market.amm, position
    ensures match Tr.Close(old(user.collateral), old(market.State()), old(position.State()), now)
            case Ok((m, p, collateral, value)) =>
              && r == Ok((value, old(position.baseAssetAmount)))
              && market.State() == m && position.State() == p && user.collateral == collateral
            case Err(e) => r == Err(e)
  {
    if position.baseAssetAmount == 0 {
      return Ok((0, 0));
    }
    var direction := Tr.SwapDirectionToClose(position.baseAssetAmount);
    var size :- FitU128(Abs(position.baseAssetAmount));
    var value :- market.amm.SwapBaseAsset(size, direction, now);
    var pnl :- Tr.CalculatePnl(value, position.quoteAssetAmount, direction);
    user.collateral :- Tr.UpdatedCollateral(user.collateral, pnl);
    var base := position.baseAssetAmount;
    var _ :- Retire(market, position);
    r := Ok((value, base));
  }
}
