/** The SDK's own valuation, on unbounded integers and with its own grouping of divisions, and its
    agreement with the program wherever the program succeeds. */
module Sdk {
  import opened Numeric
  import opened State
  import opened Curve
  import opened Trading
  import opened Shapes
  import opened Rounding
  import opened Funding
  import opened FundingRates

  const AMM_RESERVE_PRECISION := 10_000_000_000_000
  const PEG_PRECISION := 1_000
  const PRICE_TO_QUOTE_PRECISION := 10_000

  datatype AssetType = Quote | Base

  // ----- math/amm.ts

  /** calculatePrice: zero for an empty base reserve. */
  function Price(base: int, quote: int, peg: int): int {
    if Abs(base) <= 0 then 0 else
      TruncDiv(TruncDiv(quote * MARK_PRICE_PRECISION * peg, PEG_PRECISION), base)
  }

  /** getSwapDirection */
  function SdkSwapDirection(asset: AssetType, direction: PositionDirection): SwapDirection {
    if direction.Long? && asset.Base? then Remove
    else if direction.Short? && asset.Quote? then Remove
    else Add
  }

  /** calculateSwapOutput: the new input and output reserves; dividing by zero throws. */
  function SdkSwapOutput(input: int, amount: int, direction: SwapDirection, invariantK: int): Option<(int, int)> {
    var newInput := if direction.Add? then input + amount else input - amount;
    if newInput == 0 then None else Some((newInput, TruncDiv(invariantK, newInput)))
  }

  /** calculateAmmReservesAfterSwap: the quote and base reserves. */
  function ReservesAfterSwap(a: Amm, asset: AssetType, amount: int, direction: SwapDirection): Option<(int, int)> {
    if amount < 0 then None else
      match asset
      case Quote =>
        if a.pegMultiplier == 0 then None else
          var reserves := TruncDiv(amount * AMM_TIMES_PEG_TO_QUOTE_PRECISION_RATIO, a.pegMultiplier);
          SdkSwapOutput(a.quoteAssetReserve, reserves, direction, a.sqrtK * a.sqrtK)
      case Base =>
        match SdkSwapOutput(a.baseAssetReserve, amount, direction, a.sqrtK * a.sqrtK)
        case Some((base, quote)) => Some((quote, base))
        case None => None
  }

  /** calculateTerminalPrice, for an initialized market. */
  function SdkTerminalPrice(m: Market): Option<int> {
    var toClose := if m.baseAssetAmount > 0 then Short else Long;
    match ReservesAfterSwap(m.amm, Base, Abs(m.baseAssetAmount), SdkSwapDirection(Base, toClose))
    case Some((quote, base)) =>
      if base == 0 then None else
        Some(TruncDiv(TruncDiv(quote * MARK_PRICE_PRECISION * m.amm.pegMultiplier, PEG_PRECISION), base))
    case None => None
  }

  // ----- math/position.ts

  /** calculateBaseAssetValue */
  function BaseAssetValue(m: Market, p: Position): Option<int> {
    if p.baseAssetAmount == 0 then Some(0) else
      var toClose := if p.baseAssetAmount > 0 then Short else Long;
      match ReservesAfterSwap(m.amm, Base, Abs(p.baseAssetAmount), SdkSwapDirection(Base, toClose))
      case Some((quote, _)) =>
        var change := if toClose.Short? then m.amm.quoteAssetReserve - quote else quote - m.amm.quoteAssetReserve;
        Some(TruncDiv(change * m.amm.pegMultiplier, AMM_TIMES_PEG_TO_QUOTE_PRECISION_RATIO))
      case None => None
  }

  /** calculatePositionFundingPNL */
  function PositionFundingPnl(m: Market, p: Position): int {
    if p.baseAssetAmount == 0 then 0 else
      var rate := if p.baseAssetAmount > 0 then m.amm.cumulativeFundingRateLong else m.amm.cumulativeFundingRateShort;
      TruncDiv(TruncDiv((rate - p.lastCumulativeFundingRate) * p.baseAssetAmount, AMM_RESERVE_PRECISION),
               FUNDING_PAYMENT_PRECISION) * -1
  }

  /** calculatePositionPNL */
  function PositionPnl(m: Market, p: Position, withFunding: bool): Option<int> {
    if p.baseAssetAmount == 0 then Some(0) else
      match BaseAssetValue(m, p)
      case Some(value) =>
        var pnl := if p.baseAssetAmount > 0 then value - p.quoteAssetAmount else p.quoteAssetAmount - value - 1;
        Some(pnl + (if withFunding then TruncDiv(PositionFundingPnl(m, p), PRICE_TO_QUOTE_PRECISION) else 0))
      case None => None
  }

  // ----- Agreement

  /** The SDK's swap gives the program's reserves. */
  lemma SwapsAgree(a: Amm, quote: u128, direction: PositionDirection)
    requires SwapQuote(a, quote, QuoteSwapDirection(direction)).Ok?
    ensures SdkSwapDirection(Quote, direction) == QuoteSwapDirection(direction)
    ensures var a' := SwapQuote(a, quote, QuoteSwapDirection(direction)).value.0;
            ReservesAfterSwap(a, Quote, quote, SdkSwapDirection(Quote, direction))
            == Some((a'.quoteAssetReserve, a'.baseAssetReserve))
  {
    SwapQuoteMoves(a, quote, QuoteSwapDirection(direction));
  }

  /** The SDK's mark price is the program's: the scaling by ten digits and back by three is exact. */
  lemma PricesAgree(quote: u128, base: u128, peg: u128)
    requires CalculatePrice(quote, base, peg).Ok?
    ensures Price(base, quote, peg) == CalculatePrice(quote, base, peg).value
  {
    ScaledQuote(quote, peg);
  }

  lemma ScaledQuote(quote: nat, peg: nat)
    ensures TruncDiv(quote * MARK_PRICE_PRECISION * peg, PEG_PRECISION) == quote * peg * PRICE_TO_PEG_PRECISION_RATIO
    ensures 0 <= quote * peg
  {
    assert quote * MARK_PRICE_PRECISION * peg == quote * peg * PRICE_TO_PEG_PRECISION_RATIO * PEG_PRECISION;
    FloorUnique(quote * MARK_PRICE_PRECISION * peg, PEG_PRECISION, quote * peg * PRICE_TO_PEG_PRECISION_RATIO);
  }

  /** The SDK values every position as the program does. */
  lemma ValuesAgree(m: Market, p: Position)
    requires ValueAndPnl(p.baseAssetAmount, p.quoteAssetAmount, m.amm).Ok?
    ensures var (value, pnl) := ValueAndPnl(p.baseAssetAmount, p.quoteAssetAmount, m.amm).value;
            && BaseAssetValue(m, p) == Some(value)
            && PositionPnl(m, p, false) == Some(pnl)
  {
    if p.IsOpen() {
      var direction := SwapDirectionToClose(p.baseAssetAmount);
      SwapShape(Abs(p.baseAssetAmount), m.amm.baseAssetReserve, direction, m.amm.sqrtK);
      ValueShape(p.baseAssetAmount, p.quoteAssetAmount, m.amm);
    }
  }

  /** The SDK's terminal price is the program's. */
  lemma TerminalPricesAgree(m: Market)
    requires TerminalPrice(m).Ok?
    ensures SdkTerminalPrice(m) == Some(TerminalPrice(m).value)
  {
    var direction := if m.baseAssetAmount > 0 then Add else Remove;
    SwapShape(Abs(m.baseAssetAmount), m.amm.baseAssetReserve, direction, m.amm.sqrtK);
    var (quote, _) := SwapOutput(Abs(m.baseAssetAmount), m.amm.baseAssetReserve, direction, m.amm.sqrtK).value;
    ScaledQuote(quote, m.amm.pegMultiplier);
  }

  /** A funding payment is the truncated exact amount. */
  lemma PaymentIsTruncated(delta: int, base: int)
    ensures Payment(delta, base) == TruncDiv(0 - delta * base, PAYMENT_UNIT)
  {
    SignedProduct(delta, base);
    if delta * base == 0 {
      FloorUnique(0, PAYMENT_UNIT, 0);
    }
  }

  /** The two groupings of the divisions of one exact amount. */
  lemma GroupingsAgree(x: int)
    ensures var sdk := TruncDiv(TruncDiv(x, AMM_RESERVE_PRECISION), FUNDING_PAYMENT_PRECISION) * -1;
            var payment := TruncDiv(0 - x, PAYMENT_UNIT);
            && sdk == TruncDiv(payment, 1_000)
            && TruncDiv(sdk, PRICE_TO_QUOTE_PRECISION) == TruncDiv(payment, AMM_TO_QUOTE_PRECISION_RATIO)
  {
    TruncNested(x, AMM_RESERVE_PRECISION, FUNDING_PAYMENT_PRECISION);
    TruncNegate(x, AMM_RESERVE_PRECISION * FUNDING_PAYMENT_PRECISION);
    TruncNested(0 - x, PAYMENT_UNIT, 1_000);
    TruncNested(TruncDiv(0 - x, PAYMENT_UNIT), 1_000, PRICE_TO_QUOTE_PRECISION);
  }

  /** The SDK groups its divisions by 10^13 and 10^4 where the program divides by 10^10 and 10^4, so
      its funding pnl has three decimals fewer; in quote units the two are the same. */
  lemma FundingPnlAgrees(markets: seq<Market>, p: Position)
    requires p.IsOpen() && SettlePosition(markets, p).Ok?
    ensures p.marketIndex < |markets|
    ensures var payment := SettlePosition(markets, p).value.1;
            var m := markets[p.marketIndex];
            && PositionFundingPnl(m, p) == TruncDiv(payment, 1_000)
            && TruncDiv(PositionFundingPnl(m, p), PRICE_TO_QUOTE_PRECISION)
               == TruncDiv(payment, AMM_TO_QUOTE_PRECISION_RATIO)
  {
    var m := markets[p.marketIndex];
    var delta := CumulativeRate(m.amm, p.baseAssetAmount) - p.lastCumulativeFundingRate;
    PaymentIsTruncated(delta, p.baseAssetAmount);
    GroupingsAgree(delta * p.baseAssetAmount);
    if delta != 0 {
      FundingPaymentExact(delta, p.baseAssetAmount);
    }
  }
}
