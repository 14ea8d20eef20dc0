/** Funding: payments, the cap financed by the fee pool, the schedule, the update of the cumulative
    rates and the lazy settlement of a user. */
module Funding {
  import opened Numeric
  import opened State
  import opened Twap
  import opened Trading

  /** Rate times base that make one quote unit of funding. */
  const FUNDING_UNIT := QUOTE_TO_BASE_AMT_FUNDING_PRECISION

  // ----- Payments

  /** What a position receives (negative: pays) for a change of its cumulative rate, with 13 decimals. */
  function FundingPayment(delta: i128, base: i128): Result<i128> {
    var product :- FitU192(Abs(delta) * Abs(base));
    var narrow :- NarrowU128(product / MARK_PRICE_PRECISION / FUNDING_PAYMENT_PRECISION);
    var magnitude :- CastI128(narrow);
    Ok(if (base > 0) == (delta > 0) then 0 - magnitude else magnitude)
  }

  function FundingPaymentInQuote(delta: i128, base: i128): Result<i128> {
    var payment :- FundingPayment(delta, base);
    DivI(payment, AMM_TO_QUOTE_PRECISION_RATIO)
  }

  /** The rate at which a side of the given size receives no more than the limit. */
  function RateFromPnlLimit(pnlLimit: i128, base: i128): Result<i128> {
    if base == 0 then Ok(0) else
      var biased :- FitI128(if pnlLimit < 0 then pnlLimit + 1 else pnlLimit);
      var product :- FitI128(biased * QUOTE_TO_BASE_AMT_FUNDING_PRECISION);
      DivI(product, base)
  }

  // ----- The cap

  /** Half of all fees is not available for distribution. */
  function FeeFloor(a: Amm): u128 {
    a.totalFee / 2
  }

  /** The (nonpositive) pnl the fee pool can take in one update: two thirds of its excess. */
  function PnlLimit(a: Amm): Result<i128> {
    if a.totalFeeMinusDistributions > FeeFloor(a) then
      var doubled :- FitU128((a.totalFeeMinusDistributions - FeeFloor(a)) * 2);
      var limit :- CastI128(doubled / 3);
      Ok(0 - limit)
    else
      Ok(0)
  }

  function CappedFundingRate(m: Market, uncappedPnl: int, rate: i128): Result<(i128, int)> {
    var pnlLimit :- PnlLimit(m.amm);
    if uncappedPnl < pnlLimit then
      var fromUsers :- FundingPaymentInQuote(rate, if rate > 0 then m.baseAssetAmountLong else m.baseAssetAmountShort);
      var withUsers :- FitI128(pnlLimit - Abs(fromUsers));
      var capped :- RateFromPnlLimit(withUsers, if rate < 0 then m.baseAssetAmountLong else m.baseAssetAmountShort);
      Ok((capped, pnlLimit))
    else
      Ok((rate, uncappedPnl))
  }

  /** The rates and the fee pool when the net position of all users receives. */
  function ShareDeficit(m: Market, uncappedPnl: int, rate: i128): Result<(Market, i128, i128)> {
    var (cappedRate, cappedPnl) :- CappedFundingRate(m, uncappedPnl, rate);
    var pool :- FitU128(m.amm.totalFeeMinusDistributions - Abs(cappedPnl));
    var _ :- Need(cappedPnl == 0 || pool >= FeeFloor(m.amm), InvalidFundingProfitability);
    Ok((m.(amm := m.amm.(totalFeeMinusDistributions := pool)),
        if rate < 0 then cappedRate else rate,
        if rate > 0 then cappedRate else rate))
  }

  /** The rates for longs and shorts; the fee pool takes what the net position of all users pays and
      gives what it receives, up to the cap. */
  function FundingRateLongShort(m: Market, rate: i128): Result<(Market, i128, i128)> {
    var netPayment :- FundingPaymentInQuote(rate, m.baseAssetAmount);
    if netPayment <= 0 then
      var pool :- FitU128(m.amm.totalFeeMinusDistributions - netPayment);
      Ok((m.(amm := m.amm.(totalFeeMinusDistributions := pool)), rate, rate))
    else
      ShareDeficit(m, 0 - netPayment, rate)
  }

  // ----- The schedule and the update

  /** How long after the last update the next one is allowed: on a multiple of the period, and not
      the next multiple if the last update came late. */
  function NextUpdateWait(last: i64, period: i64): Result<i64> {
    if period <= 1 then Ok(period) else
      var delay := last % period;
      if delay == 0 then Ok(period) else
        if delay > period / 3 then
          var doubled :- FitI64(period * 2);
          FitI64(doubled - delay)
        else
          FitI64(period - delay)
  }

  /** How many funding periods make a day, for periods of an hour or more. */
  function PeriodAdjustment(period: i64): i64 {
    24 * ONE_HOUR / Max(ONE_HOUR, period)
  }

  /** The funding rate for a mark and an oracle average, the spread clamped to a 33rd of the oracle's. */
  function FundingRate(markTwap: u128, oracleTwap: i128, period: i64): Result<i128> {
    var mark :- CastI128(markTwap);
    var spread :- FitI128(mark - oracleTwap);
    var maxSpread :- DivI(oracleTwap, 33);
    var clamped := Max(0 - maxSpread, Min(spread, maxSpread));
    var product :- FitI128(clamped * FUNDING_PAYMENT_PRECISION);
    DivI(product, PeriodAdjustment(period))
  }

  /** Whether the schedule allows an update at a time. */
  predicate UpdateDue(last: i64, period: i64, now: i64) {
    && FitI64(now - last).Ok?
    && NextUpdateWait(last, period).Ok?
    && now - last >= NextUpdateWait(last, period).value
  }

  /** Adds the two rates to the cumulative ones and records the update. */
  function Credit(m: Market, rateLong: i128, rateShort: i128, rate: i128, now: i64): Result<Market> {
    var cumulativeLong :- FitI128(m.amm.cumulativeFundingRateLong + rateLong);
    var cumulativeShort :- FitI128(m.amm.cumulativeFundingRateShort + rateShort);
    Ok(m.(amm := m.amm.(cumulativeFundingRateLong := cumulativeLong,
                        cumulativeFundingRateShort := cumulativeShort,
                        lastFundingRate := rate,
                        lastFundingRateTs := now)))
  }

  /** Adds a funding rate to both sides' cumulative rates, as far as the fee pool allows. */
  function Accumulate(m: Market, rate: i128, now: i64): Result<Market> {
    var (funded, rateLong, rateShort) :- FundingRateLongShort(m, rate);
    Credit(funded, rateLong, rateShort, rate, now)
  }

  /** Moves the averages and the cumulative rates of a market whose update is due. */
  function ApplyFunding(m: Market, oraclePrice: i128, now: i64): Result<Market> {
    var oracled :- UpdateOracleTwap(m.amm, now, oraclePrice);
    var marked :- UpdateMarkTwap(oracled, now, None);
    var rate :- FundingRate(marked.lastMarkPriceTwap, oracled.lastOraclePriceTwap, m.amm.fundingPeriod);
    Accumulate(m.(amm := marked), rate, now)
  }

  /** `blocked` stands for a paused market, an invalid oracle or a mark too far from it. */
  function UpdateFundingRate(m: Market, oraclePrice: i128, blocked: bool, now: i64): Result<Market> {
    var sinceLast :- FitI64(now - m.amm.lastFundingRateTs);
    var wait :- NextUpdateWait(m.amm.lastFundingRateTs, m.amm.fundingPeriod);
    if !blocked && sinceLast >= wait then ApplyFunding(m, oraclePrice, now) else Ok(m)
  }

  // ----- Settlement

  function CumulativeRate(a: Amm, base: i128): i128 {
    if base > 0 then a.cumulativeFundingRateLong else a.cumulativeFundingRateShort
  }

  /** Brings one position up to its market's cumulative rate: the new position and the payment. */
  function SettlePosition(markets: seq<Market>, p: Position): Result<(Position, i128)> {
    if p.baseAssetAmount == 0 then Ok((p, 0)) else
      var _ :- Need(p.marketIndex < |markets|, AccountNotFound);
      var a := markets[p.marketIndex].amm;
      var rate := CumulativeRate(a, p.baseAssetAmount);
      if rate == p.lastCumulativeFundingRate then Ok((p, 0)) else
        var delta :- FitI128(rate - p.lastCumulativeFundingRate);
        var payment :- FundingPayment(delta, p.baseAssetAmount);
        Ok((p.(lastCumulativeFundingRate := rate, lastFundingRateTs := a.lastFundingRateTs), payment))
  }

  /** Settles one position and adds its payment to what the ones before it came to. */
  function SettleAndAdd(markets: seq<Market>, p: Position, total: i128): Result<(Position, i128)> {
    var (position, payment) :- SettlePosition(markets, p);
    var sum :- FitI128(total + payment);
    Ok((position, sum))
  }

  function SettlePositions(markets: seq<Market>, positions: seq<Position>): (r: Result<(seq<Position>, i128)>)
    ensures r.Ok? ==> |r.value.0| == |positions|
  {
    if positions == [] then Ok(([], 0)) else
      var n := |positions| - 1;
      var (settled, total) :- SettlePositions(markets, positions[..n]);
      var (position, sum) :- SettleAndAdd(markets, positions[n], total);
      Ok((settled + [position], sum))
  }

  /** Settles every position of a user against his collateral. */
  function SettleUser(markets: seq<Market>, u: User): Result<User> {
    var (positions, total) :- SettlePositions(markets, u.positions);
    var payment :- DivI(total, AMM_TO_QUOTE_PRECISION_RATIO);
    var collateral :- UpdatedCollateral(u.collateral, payment);
    Ok(User(collateral, positions))
  }
}
