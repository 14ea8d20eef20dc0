/** The rates an update can produce, what it can take from the fee pool, and when it can happen. */
module FundingRates {
  import opened Numeric
  import opened State
  import opened Twap
  import opened Funding

  // ----- Payments

  /** Rate times base that make one unit of a funding payment, before it is turned into quote units. */
  const PAYMENT_UNIT := MARK_PRICE_PRECISION * FUNDING_PAYMENT_PRECISION

  /** A funding payment without range checks. */
  function Payment(delta: int, base: int): int {
    var magnitude := Abs(delta) * Abs(base) / PAYMENT_UNIT;
    if (base > 0) == (delta > 0) then 0 - magnitude else magnitude
  }

  /** The settlement of a single position in quote units. */
  function Due(delta: int, base: int): int {
    var magnitude := Abs(delta) * Abs(base) / FUNDING_UNIT;
    if (base > 0) == (delta > 0) then 0 - magnitude else magnitude
  }

  lemma FundingPaymentExact(delta: i128, base: i128)
    requires FundingPayment(delta, base).Ok?
    ensures FundingPayment(delta, base).value == Payment(delta, base)
  {
    FloorNested(Abs(delta) * Abs(base), MARK_PRICE_PRECISION, FUNDING_PAYMENT_PRECISION);
  }

  /** The payment in quote units is one floor of the exact product. */
  lemma PaymentInQuoteExact(delta: i128, base: i128)
    requires FundingPaymentInQuote(delta, base).Ok?
    ensures FundingPaymentInQuote(delta, base).value == Due(delta, base)
  {
    var product := Abs(delta) * Abs(base);
    FloorNested(product, MARK_PRICE_PRECISION, FUNDING_PAYMENT_PRECISION);
    FloorNested(product, MARK_PRICE_PRECISION * FUNDING_PAYMENT_PRECISION, AMM_TO_QUOTE_PRECISION_RATIO);
  }

  // ----- The fee pool

  /** An update takes at most two thirds of what the pool holds above its floor, and nothing if it
      holds nothing above it. */
  lemma FundingSpendsExcessOnly(m: Market, rate: i128)
    requires FundingRateLongShort(m, rate).Ok?
    ensures var m' := FundingRateLongShort(m, rate).value.0;
            var excess := m.amm.totalFeeMinusDistributions - FeeFloor(m.amm);
            && m' == m.(amm := m.amm.(totalFeeMinusDistributions := m'.amm.totalFeeMinusDistributions))
            && m.amm.totalFeeMinusDistributions - m'.amm.totalFeeMinusDistributions <= Max(excess, 0) * 2 / 3
  {
  }

  /** So the check that rejects an update for spending too much never rejects one, in any state. */
  lemma ProfitabilityErrorUnreachable(m: Market, rate: i128)
    ensures FundingRateLongShort(m, rate) != Err(InvalidFundingProfitability)
  {
  }

  // ----- The rates

  /** The aggregates of a market agree with each other. */
  predicate Balanced(m: Market) {
    && m.baseAssetAmountShort <= 0 <= m.baseAssetAmountLong
    && m.baseAssetAmount == m.baseAssetAmountLong + m.baseAssetAmountShort
  }

  /** One rate has the sign of another or is zero, and is no larger. */
  predicate Tempered(rate: int, original: int) {
    if original >= 0 then 0 <= rate <= original else original <= rate <= 0
  }

  /** What the receivers may get in the capped branch: the limit and what the payers pay, less one. */
  function Budget(limit: nat, rate: nat, payers: nat): nat {
    var whole := limit + rate * payers / FUNDING_UNIT;
    if whole > 0 then whole - 1 else 0
  }

  /** A limit below what the net position would receive caps the receivers' rate below the payers'. */
  lemma CapBelowRate(rate: nat, payers: nat, receivers: nat, limit: nat)
    requires payers < receivers && limit < rate * (receivers - payers) / FUNDING_UNIT
    ensures 0 <= Budget(limit, rate, payers) * FUNDING_UNIT / receivers <= rate
  {
    var net, paid, budget := rate * (receivers - payers), rate * payers, Budget(limit, rate, payers);
    FloorBounds(net, FUNDING_UNIT);
    FloorBounds(paid, FUNDING_UNIT);
    assert net + paid == rate * receivers;
    assert budget * FUNDING_UNIT <= rate * receivers;
    FloorAtLeast(budget * FUNDING_UNIT, receivers, 0);
    FloorAtLeast(budget * FUNDING_UNIT, receivers, rate + 1);
    assert (rate + 1) * receivers == rate * receivers + receivers;
  }

  lemma RateFromPnlLimitExact(pnlLimit: i128, base: i128)
    requires RateFromPnlLimit(pnlLimit, base).Ok? && pnlLimit <= 0 && base != 0
    ensures var magnitude := (if pnlLimit < 0 then 0 - pnlLimit - 1 else 0) * FUNDING_UNIT / Abs(base);
            RateFromPnlLimit(pnlLimit, base).value == if base > 0 then 0 - magnitude else magnitude
  {
    var biased := if pnlLimit < 0 then pnlLimit + 1 else pnlLimit;
    TruncDivOfNonpositive(biased * FUNDING_UNIT, base);
  }

  lemma CappedRateExact(m: Market, uncappedPnl: int, rate: i128, payers: i128, receivers: i128)
    requires CappedFundingRate(m, uncappedPnl, rate).Ok? && PnlLimit(m.amm).Ok?
    requires uncappedPnl < PnlLimit(m.amm).value
    requires payers == if rate > 0 then m.baseAssetAmountLong else m.baseAssetAmountShort
    requires receivers == if rate < 0 then m.baseAssetAmountLong else m.baseAssetAmountShort
    requires receivers != 0
    ensures var (capped, pnl) := CappedFundingRate(m, uncappedPnl, rate).value;
            var magnitude := Budget(0 - pnl, Abs(rate), Abs(payers)) * FUNDING_UNIT / Abs(receivers);
            && pnl == PnlLimit(m.amm).value
            && capped == if receivers > 0 then 0 - magnitude else magnitude
  {
    var limit := PnlLimit(m.amm).value;
    PaymentInQuoteExact(rate, payers);
    FloorAtLeast(Abs(rate) * Abs(payers), FUNDING_UNIT, 0);
    var fromUsers := FundingPaymentInQuote(rate, payers).value;
    assert Abs(fromUsers) == Abs(rate) * Abs(payers) / FUNDING_UNIT;
    RateFromPnlLimitExact(limit - Abs(fromUsers), receivers);
  }

  /** The side that receives when the net position receives is the larger one. */
  lemma ReceiversOutweigh(m: Market, rate: i128)
    requires Balanced(m) && FundingPaymentInQuote(rate, m.baseAssetAmount).Ok?
    requires 0 < FundingPaymentInQuote(rate, m.baseAssetAmount).value
    ensures rate != 0
    ensures var payers := if rate > 0 then m.baseAssetAmountLong else m.baseAssetAmountShort;
            var receivers := if rate < 0 then m.baseAssetAmountLong else m.baseAssetAmountShort;
            && Abs(payers) < Abs(receivers)
            && Abs(m.baseAssetAmount) == Abs(receivers) - Abs(payers)
            && FundingPaymentInQuote(rate, m.baseAssetAmount).value
               == Abs(rate) * (Abs(receivers) - Abs(payers)) / FUNDING_UNIT
  {
    PaymentInQuoteExact(rate, m.baseAssetAmount);
  }

  /** Capped rates are sound: whatever the state of the fee pool, each side's rate has the sign of
      the funding rate or is zero, never exceeds it, and the paying side's is the funding rate. */
  lemma RatesTempered(m: Market, rate: i128)
    requires Balanced(m) && FundingRateLongShort(m, rate).Ok?
    ensures var (_, rateLong, rateShort) := FundingRateLongShort(m, rate).value;
            && Tempered(rateLong, rate) && Tempered(rateShort, rate)
            && (if rate > 0 then rateLong == rate else rateShort == rate)
  {
    var uncapped := 0 - FundingPaymentInQuote(rate, m.baseAssetAmount).value;
    if uncapped < 0 && uncapped < PnlLimit(m.amm).value {
      ReceiversOutweigh(m, rate);
      var payers := if rate > 0 then m.baseAssetAmountLong else m.baseAssetAmountShort;
      var receivers := if rate < 0 then m.baseAssetAmountLong else m.baseAssetAmountShort;
      CappedRateExact(m, uncapped, rate, payers, receivers);
      CapBelowRate(Abs(rate), Abs(payers), Abs(receivers), 0 - PnlLimit(m.amm).value);
    }
  }

  /** A period of up to an hour makes 24 of a day; a longer one as many as fit into it. */
  lemma PeriodsOfADay(period: i64)
    ensures period <= 3600 ==> PeriodAdjustment(period) == 24
    ensures 3600 < period ==> PeriodAdjustment(period) * period <= 86_400 < (PeriodAdjustment(period) + 1) * period
  {
    if 3600 < period {
      FloorBounds(86_400, period);
    }
  }

  /** The most one update may move a cumulative rate, for a positive oracle average. */
  function MaxRate(oracleTwap: int, period: i64): int
    requires 0 < PeriodAdjustment(period)
  {
    oracleTwap / 33 * FUNDING_PAYMENT_PRECISION / PeriodAdjustment(period)
  }

  lemma FundingRateClamped(markTwap: u128, oracleTwap: i128, period: i64)
    requires 0 < oracleTwap && FundingRate(markTwap, oracleTwap, period).Ok?
    ensures 0 < PeriodAdjustment(period)
    ensures 0 - MaxRate(oracleTwap, period) <= FundingRate(markTwap, oracleTwap, period).value <= MaxRate(oracleTwap, period)
  {
    var adjustment := PeriodAdjustment(period);
    FloorAtLeast(24 * ONE_HOUR, Max(ONE_HOUR, period), 0);
    var maxSpread := oracleTwap / 33;
    var clamped := Max(0 - maxSpread, Min(markTwap - oracleTwap, maxSpread));
    TruncDivMagnitude(clamped * FUNDING_PAYMENT_PRECISION, adjustment);
    FloorMono(Abs(clamped) * FUNDING_PAYMENT_PRECISION, maxSpread * FUNDING_PAYMENT_PRECISION, adjustment);
  }

  /** The funding rate, times the periods of a day, is the spread of the mark average over the oracle's,
      clamped to a 33rd of the latter, with four more decimals, to within one less than the periods. */
  lemma FundingRateFollowsSpread(markTwap: u128, oracleTwap: i128, period: i64)
    requires 0 < oracleTwap && FundingRate(markTwap, oracleTwap, period).Ok?
    ensures var limit := oracleTwap / 33;
            var spread := Max(0 - limit, Min(markTwap - oracleTwap, limit));
            var rate := FundingRate(markTwap, oracleTwap, period).value;
            && (spread == 0 ==> rate == 0) && (spread > 0 ==> rate >= 0) && (spread < 0 ==> rate <= 0)
            && Abs(rate) * PeriodAdjustment(period) <= Abs(spread) * FUNDING_PAYMENT_PRECISION
            && Abs(spread) * FUNDING_PAYMENT_PRECISION < (Abs(rate) + 1) * PeriodAdjustment(period)
  {
    var limit := oracleTwap / 33;
    var spread := Max(0 - limit, Min(markTwap - oracleTwap, limit));
    RateOfSpread(markTwap, oracleTwap, period);
    TruncDivBounds(spread * FUNDING_PAYMENT_PRECISION, PeriodAdjustment(period));
  }

  lemma RateOfSpread(markTwap: u128, oracleTwap: i128, period: i64)
    requires 0 < oracleTwap && FundingRate(markTwap, oracleTwap, period).Ok?
    ensures 0 < PeriodAdjustment(period)
    ensures var limit := oracleTwap / 33;
            var spread := Max(0 - limit, Min(markTwap - oracleTwap, limit));
            FundingRate(markTwap, oracleTwap, period).value
            == TruncDiv(spread * FUNDING_PAYMENT_PRECISION, PeriodAdjustment(period))
  {
    FloorAtLeast(24 * ONE_HOUR, Max(ONE_HOUR, period), 0);
  }

  /** A market with its averages moved, as an update finds it before it moves the rates. */
  function Averaged(m: Market, oraclePrice: i128, now: i64): Market
    requires ApplyFunding(m, oraclePrice, now).Ok?
  {
    m.(amm := UpdateMarkTwap(UpdateOracleTwap(m.amm, now, oraclePrice).value, now, None).value)
  }

  /** What an update does: averages, pool, both cumulative rates, the rate and the time. */
  lemma ApplyFundingShape(m: Market, oraclePrice: i128, now: i64)
    requires ApplyFunding(m, oraclePrice, now).Ok?
    ensures var averaged, m' := Averaged(m, oraclePrice, now), ApplyFunding(m, oraclePrice, now).value;
            var rate := m'.amm.lastFundingRate;
            && averaged.amm == m.amm.(lastOraclePrice := m'.amm.lastOraclePrice,
                                      lastOraclePriceTwap := m'.amm.lastOraclePriceTwap,
                                      lastOraclePriceTwapTs := m'.amm.lastOraclePriceTwapTs,
                                      lastMarkPriceTwap := m'.amm.lastMarkPriceTwap,
                                      lastMarkPriceTwapTs := now)
            && FundingRate(m'.amm.lastMarkPriceTwap, m'.amm.lastOraclePriceTwap, m.amm.fundingPeriod) == Ok(rate)
            && FundingRateLongShort(averaged, rate).Ok?
            && var (_, rateLong, rateShort) := FundingRateLongShort(averaged, rate).value;
               && m' == m.(amm := m'.amm)
               && m'.amm == averaged.amm.(totalFeeMinusDistributions := m'.amm.totalFeeMinusDistributions,
                                          cumulativeFundingRateLong := m.amm.cumulativeFundingRateLong + rateLong,
                                          cumulativeFundingRateShort := m.amm.cumulativeFundingRateShort + rateShort,
                                          lastFundingRate := rate,
                                          lastFundingRateTs := now)
               && m'.amm.totalFeeMinusDistributions
                  == FundingRateLongShort(averaged, rate).value.0.amm.totalFeeMinusDistributions
  {
    var oracled := UpdateOracleTwap(m.amm, now, oraclePrice).value;
    MarkTwapShape(oracled, now, None);
    FundingSpendsExcessOnly(Averaged(m, oraclePrice, now), ApplyFunding(m, oraclePrice, now).value.amm.lastFundingRate);
  }

  /** Each update moves each side's cumulative rate by at most a 33rd of the oracle average, spread
      over the periods of a day. */
  lemma CumulativeRatesMoveBounded(m: Market, oraclePrice: i128, now: i64)
    requires Balanced(m) && ApplyFunding(m, oraclePrice, now).Ok?
    requires 0 < ApplyFunding(m, oraclePrice, now).value.amm.lastOraclePriceTwap
    ensures var a' := ApplyFunding(m, oraclePrice, now).value.amm;
            && 0 < PeriodAdjustment(m.amm.fundingPeriod)
            && var limit := MaxRate(a'.lastOraclePriceTwap, m.amm.fundingPeriod);
               && Abs(a'.cumulativeFundingRateLong - m.amm.cumulativeFundingRateLong) <= limit
               && Abs(a'.cumulativeFundingRateShort - m.amm.cumulativeFundingRateShort) <= limit
  {
    var m' := ApplyFunding(m, oraclePrice, now).value;
    ApplyFundingShape(m, oraclePrice, now);
    RatesTempered(Averaged(m, oraclePrice, now), m'.amm.lastFundingRate);
    FundingRateClamped(m'.amm.lastMarkPriceTwap, m'.amm.lastOraclePriceTwap, m.amm.fundingPeriod);
  }
}
