/** The values held by the program's accounts. */
module State {
  import opened Numeric

  datatype SwapDirection = Add | Remove

  datatype PositionDirection = Long | Short

  /** The virtual market maker of one market. Reserves have 13 decimals, the peg 3, prices 10,
      funding rates 14 and fees 6. */
  datatype Amm = Amm(
    baseAssetReserve: u128,
    quoteAssetReserve: u128,
    sqrtK: u128,
    pegMultiplier: u128,
    minimumTradeSize: u128,
    cumulativeFundingRateLong: i128,
    cumulativeFundingRateShort: i128,
    lastFundingRate: i128,
    lastFundingRateTs: i64,
    fundingPeriod: i64,
    lastOraclePrice: i128,
    lastOraclePriceTwap: i128,
    lastOraclePriceTwapTs: i64,
    lastMarkPriceTwap: u128,
    lastMarkPriceTwapTs: i64,
    totalFee: u128,
    totalFeeMinusDistributions: u128,
    totalFeeWithdrawn: u128)

  /** One market: aggregates over every user's position in it, and its market maker. */
  datatype Market = Market(
    initialized: bool,
    baseAssetAmountLong: i128,
    baseAssetAmountShort: i128,
    baseAssetAmount: i128,
    openInterest: u128,
    amm: Amm)

  /** One slot of a user's positions. Base amounts are positive for longs and negative for shorts;
      the quote amount is the entry notional. */
  datatype Position = Position(
    marketIndex: u64,
    baseAssetAmount: i128,
    quoteAssetAmount: u128,
    lastCumulativeFundingRate: i128,
    lastFundingRateTs: i64)
  {
    predicate IsOpen() {
      baseAssetAmount != 0
    }

    predicate IsFor(index: u64) {
      marketIndex == index && IsOpen()
    }
  }

  datatype User = User(collateral: u128, positions: seq<Position>)

  // Constants of math/constants.rs

  const MARK_PRICE_PRECISION := 10_000_000_000
  const FUNDING_PAYMENT_PRECISION := 10_000
  const MARGIN_PRECISION := 10_000
  const PRICE_TO_PEG_PRECISION_RATIO := 10_000_000
  const AMM_TO_QUOTE_PRECISION_RATIO := 10_000_000
  const AMM_TIMES_PEG_TO_QUOTE_PRECISION_RATIO := 10_000_000_000
  const QUOTE_TO_BASE_AMT_FUNDING_PRECISION := 1_000_000_000_000_000_000_000
  const ONE_HOUR := 3600
}
