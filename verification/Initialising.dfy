/** Which markets can be initialised, and what they start as. */
module Initialising {
  import opened Numeric
  import opened State
  import I = Instructions

  const U128_LIMIT := 0x1_0000_0000_0000_0000_0000_0000_0000_0000

  const U192_LIMIT := 0x1_0000_0000_0000_0000_0000_0000_0000_0000_0000_0000_0000_0000

  /** A slot not yet taken, equal reserves that are not zero, and numbers within the machine's. */
  predicate CanInitialize(m: Market, base: u128, quote: u128, peg: u128) {
    && !m.initialized && base == quote && base != 0
    && quote * peg < U128_LIMIT && quote * peg * PRICE_TO_PEG_PRECISION_RATIO < U192_LIMIT
    && peg * PRICE_TO_PEG_PRECISION_RATIO < U128_LIMIT && base * quote < U192_LIMIT
  }

  /** The market starts at its root with nobody in it, no fee and no funding; every clock starts now, the
      average of the mark at the peg, and the oracle values at the oracle's. */
  predicate Starts(m: Market, root: u128, period: i64, peg: u128, now: i64, oraclePrice: i128, oracleTwap: i128) {
    && m.initialized && m.openInterest == 0
    && m.baseAssetAmount == 0 && m.baseAssetAmountLong == 0 && m.baseAssetAmountShort == 0
    && var a := m.amm;
       && a.baseAssetReserve == root && a.quoteAssetReserve == root && a.sqrtK == root && a.pegMultiplier == peg
       && a.minimumTradeSize == 10_000_000 && a.fundingPeriod == period
       && a.cumulativeFundingRateLong == 0 && a.cumulativeFundingRateShort == 0 && a.lastFundingRate == 0
       && a.totalFee == 0 && a.totalFeeMinusDistributions == 0 && a.totalFeeWithdrawn == 0
       && a.lastFundingRateTs == now && a.lastOraclePriceTwapTs == now && a.lastMarkPriceTwapTs == now
       && a.lastOraclePrice == oraclePrice && a.lastOraclePriceTwap == oracleTwap
       && a.lastMarkPriceTwap == peg * PRICE_TO_PEG_PRECISION_RATIO
  }

  lemma PriceOfEqualReserves(reserve: nat, peg: nat)
    requires 0 < reserve
    ensures reserve * peg * PRICE_TO_PEG_PRECISION_RATIO / reserve == peg * PRICE_TO_PEG_PRECISION_RATIO
  {
    assert reserve * peg * PRICE_TO_PEG_PRECISION_RATIO == peg * PRICE_TO_PEG_PRECISION_RATIO * reserve;
    FloorUnique(reserve * peg * PRICE_TO_PEG_PRECISION_RATIO, reserve, peg * PRICE_TO_PEG_PRECISION_RATIO);
  }

  lemma InitializeSucceedsIff(m: Market, base: u128, quote: u128, period: i64, peg: u128, now: i64,
                              oraclePrice: i128, oracleTwap: i128)
    ensures var r := I.InitializeMarket(m, base, quote, period, peg, now, oraclePrice, oracleTwap);
            && (r.Ok? <==> CanInitialize(m, base, quote, peg))
            && (r.Ok? ==> Starts(r.value, base, period, peg, now, oraclePrice, oracleTwap))
            && (m.initialized ==> r == Err(MarketIndexAlreadyInitialized))
            && (!m.initialized && base != quote ==> r == Err(InvalidInitialPeg))
  {
    if 0 < quote {
      PriceOfEqualReserves(quote, peg);
    }
  }
}
