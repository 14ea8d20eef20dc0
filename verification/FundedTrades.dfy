/** A trade may end with an update of its market's funding, and what its user owes for that is settled
    later: the initial margin he was checked for does not cover it. */
module FundedTrades {
  import opened Numeric
  import opened State
  import opened Curve
  import opened Twap
  import opened Trading
  import opened Funding
  import I = Instructions

  /** A market a period old, its oracle average far above its mark. */
  const CALM_AMM := Amm(1000, 1000, 1000, 10_000_000_000, 1, 0, 0, 0, 0, 3600,
    100_000_000_000_000_000_000, 100_000_000_000_000_000_000, 0, 100_000_000_000_000_000, 0, 0, 0, 0)

  const CALM_MARKET := Market(true, 0, 0, 0, 0, CALM_AMM)

  const FLAT := Position(0, 0, 0, 0, 0)

  const SHORT := Position(0, -111, 100, 0, 0)

  const BEFORE := I.Accounts([CALM_MARKET], User(60, [FLAT]))

  /** No fee, a valid oracle after the trade, funding not blocked. */
  const LATE := I.TradeInputs(3600, I.OracleReading(0, 0, false, false),
    I.OracleReading(81_008_100_810_081_008, 0, false, true), false, 0, 0)

  const SOLD_AMM := CALM_AMM.(baseAssetReserve := 1111, quoteAssetReserve := 900, lastMarkPriceTwapTs := 3600)

  const SOLD_MARKET := Market(true, 0, -111, -111, 1, SOLD_AMM)

  const SOLD := I.Accounts([SOLD_MARKET], User(60, [SHORT]))

  const RATE: i128 := -1_262_285_414_121_175_314_583

  const ORACLE_AMM := SOLD_AMM.(lastOraclePrice := 99_972_997_299_729_972_998,
    lastOraclePriceTwap := 99_973_004_798_397_084_918, lastOraclePriceTwapTs := 3600)

  const AVERAGED_AMM := ORACLE_AMM.(lastMarkPriceTwap := 99_994_724_472_447_244)

  const FUNDED_MARKET := SOLD_MARKET.(amm := AVERAGED_AMM.(cumulativeFundingRateLong := RATE,
    cumulativeFundingRateShort := RATE, lastFundingRate := RATE, lastFundingRateTs := 3600,
    totalFeeMinusDistributions := 140))

  const AFTER := I.Accounts([FUNDED_MARKET], User(60, [SHORT]))

  lemma Sells()
    ensures Increase(Short, 100, CALM_MARKET, FLAT, 3600) == Ok((SOLD_MARKET, SHORT, -111))
  {
    assert MarkPrice(CALM_AMM) == Ok(100_000_000_000_000_000);
    assert WeightedAverage(100_000_000_000_000_000, 100_000_000_000_000_000, 3600, 1) == Ok(100_000_000_000_000_000);
    assert AssetToReserve(100, 10_000_000_000) == Ok(100);
    assert SwapOutput(100, 1000, Remove, 1000) == Ok((1111, 900));
  }

  lemma ShortValue()
    ensures ValueAndPnl(-111, 100, SOLD_AMM) == Ok((100, -1)) && ValueAndPnl(-111, 100, FUNDED_MARKET.amm) == Ok((100, -1))
    ensures MarkPrice(SOLD_AMM) == Ok(81_008_100_810_081_008)
  {
    assert SwapOutput(111, 1111, Remove, 1000) == Ok((1000, 1000));
    assert ReserveToAsset(100, 10_000_000_000) == Ok(100);
  }

  lemma ShortMargin(m: Market, collateral: u128, p: Position)
    requires (m == SOLD_MARKET || m == FUNDED_MARKET) && collateral < 100
    requires p.marketIndex == 0 && p.baseAssetAmount == -111 && p.quoteAssetAmount == 100
    ensures I.MarginRatio(I.Accounts([m], User(collateral, [p])))
         == Ok(I.Margin(Max(collateral - 1, 0), -1, 100, Max(collateral - 1, 0) * 10_000 / 100))
  {
    ShortValue();
    assert [p][..0] == [];
    assert I.MarginTotals([m], [p][..0]) == Ok((0, 0));
    assert I.MarginTotals([m], [p]) == Ok((100, -1));
  }

  lemma OracleAverage()
    ensures UpdateOracleTwap(SOLD_AMM, 3600, 81_008_100_810_081_008) == Ok(ORACLE_AMM)
  {
    assert CappedOraclePrice(SOLD_AMM, 81_008_100_810_081_008) == Ok(99_972_997_299_729_972_998);
    assert Interpolated(100_000_000_000_000_000_000, 99_972_997_299_729_972_998) == Ok(99_972_997_299_729_972_998);
    assert WeightedAverage(99_972_997_299_729_972_998, 100_000_000_000_000_000_000, 3600, 1) == Ok(99_973_004_798_397_084_918);
  }

  lemma MarkAverage()
    ensures UpdateMarkTwap(ORACLE_AMM, 3600, None) == Ok(AVERAGED_AMM)
  {
    assert MarkPrice(ORACLE_AMM) == Ok(81_008_100_810_081_008) by { ShortValue(); }
    assert WeightedAverage(81_008_100_810_081_008, 100_000_000_000_000_000, 1, 3599) == Ok(99_994_724_472_447_244);
  }

  lemma Rates()
    ensures FundingRate(99_994_724_472_447_244, 99_973_004_798_397_084_918, 3600) == Ok(RATE)
    ensures FundingPayment(RATE, -111) == Ok(-1_401_136_809)
  {
    assert PeriodAdjustment(3600) == 24;
  }

  lemma Funds()
    ensures ApplyFunding(SOLD_MARKET, 81_008_100_810_081_008, 3600) == Ok(FUNDED_MARKET)
  {
    OracleAverage();
    MarkAverage();
    Rates();
    assert FundingPaymentInQuote(RATE, -111) == Ok(-140);
  }

  lemma Opens()
    ensures I.OpenTrade(BEFORE, 0, Short, 100, LATE) == Ok(I.Traded(SOLD, 100, 111, true))
  {
    Sells();
    assert MarkPrice(CALM_AMM) == Ok(100_000_000_000_000_000);
    assert I.FindSlot([FLAT], 0, 0) == None && I.FreeSlot([FLAT], 0) == Some(0);
    assert [FLAT][0 := FLAT] == [FLAT] && [FLAT][0 := SHORT] == [SHORT] && [CALM_MARKET][0 := SOLD_MARKET] == [SOLD_MARKET];
    assert I.IncreaseSlot(BEFORE, 0, Short, 100, 3600) == Ok((SOLD, -111));
  }

  lemma Finishes()
    ensures I.FinishOpen(I.DEFAULT_CONFIG, I.Traded(SOLD, 100, 111, true), 0, Short, 0, LATE) == Ok(AFTER)
  {
    ShortValue();
    ShortMargin(SOLD_MARKET, 60, SHORT);
    Funds();
    assert [SOLD_MARKET][0 := SOLD_MARKET] == [SOLD_MARKET] && [SOLD_MARKET][0 := FUNDED_MARKET] == [FUNDED_MARKET];
    assert I.ChargeFee(SOLD, 0, 0, 0) == Ok(SOLD);
    assert UpdateFundingRate(SOLD_MARKET, 81_008_100_810_081_008, false, 3600) == Ok(FUNDED_MARKET);
  }

  const OWING := SHORT.(lastCumulativeFundingRate := RATE, lastFundingRateTs := 3600)

  lemma Owes()
    ensures I.Settle(AFTER) == Ok(I.Accounts([FUNDED_MARKET], User(0, [OWING])))
  {
    Rates();
    assert [SHORT][..0] == [] && [] + [OWING] == [OWING];
    assert SettlePositions([FUNDED_MARKET], [SHORT][..0]) == Ok(([], 0));
    assert SettlePositions([FUNDED_MARKET], [SHORT]) == Ok(([OWING], -1_401_136_809));
    assert TruncDiv(-1_401_136_809, AMM_TO_QUOTE_PRECISION_RATIO) == -140;
  }

  const CLOSED_MARKET := Market(true, 0, 0, 0, 0,
    FUNDED_MARKET.amm.(baseAssetReserve := 1000, quoteAssetReserve := 1000, lastMarkPriceTwap := 99_989_450_410_318_808))

  lemma Closes()
    ensures I.LiquidateSlots(I.Accounts([FUNDED_MARKET], User(0, [OWING])), 1, {}, 3600)
         == Ok((I.Accounts([CLOSED_MARKET], User(0, [FLAT])), 100))
  {
    var a, b := I.Accounts([FUNDED_MARKET], User(0, [OWING])), I.Accounts([CLOSED_MARKET], User(0, [FLAT]));
    assert Close(0, FUNDED_MARKET, OWING, 3600) == Ok((CLOSED_MARKET, FLAT, 0, 100)) by { CloseIs(); }
    assert MarkPrice(FUNDED_MARKET.amm) == Ok(81_008_100_810_081_008) by { ShortValue(); }
    assert MarkPrice(CLOSED_MARKET.amm) == Ok(100_000_000_000_000_000);
    assert [FUNDED_MARKET][0 := CLOSED_MARKET] == [CLOSED_MARKET] && [OWING][0 := FLAT] == [FLAT];
    assert I.LiquidateSlot(a, 0, {}, 3600) == Ok((b, 100));
    assert I.LiquidateSlots(a, 0, {}, 3600) == Ok((a, 0));
  }

  lemma CloseIs()
    ensures Close(0, FUNDED_MARKET, OWING, 3600) == Ok((CLOSED_MARKET, FLAT, 0, 100))
  {
    assert MarkPrice(FUNDED_MARKET.amm) == Ok(81_008_100_810_081_008) by { ShortValue(); }
    assert WeightedAverage(81_008_100_810_081_008, 99_994_724_472_447_244, 1, 3599) == Ok(99_989_450_410_318_808);
    assert SwapOutput(111, 1111, Remove, 1000) == Ok((1000, 1000));
    assert ReserveToAsset(100, 10_000_000_000) == Ok(100);
  }

  lemma OpensLate()
    ensures I.OpenPosition(I.DEFAULT_CONFIG, BEFORE, 0, Short, 100, 0, LATE) == Ok(AFTER)
  {
    assert I.Settle(BEFORE) == Ok(BEFORE) by { SettlesFlat(); }
    Opens();
    Finishes();
  }

  lemma IsLiquidated()
    ensures I.Liquidate(I.DEFAULT_CONFIG, AFTER, {}, 0, 3600) == Ok((I.Accounts([CLOSED_MARKET], User(0, [FLAT])), 0))
  {
    var a := I.Accounts([FUNDED_MARKET], User(0, [OWING]));
    assert I.Settle(AFTER) == Ok(a) by { Owes(); }
    assert I.MarginRatio(a) == Ok(I.Margin(0, -1, 100, 0)) by { ShortMargin(FUNDED_MARKET, 0, OWING); }
    Closes();
    assert I.Fraction(0, 1, 1) == Ok(0);
    assert I.LiquidateSettled(I.DEFAULT_CONFIG, a, I.Margin(0, -1, 100, 0), {}, 0, 3600)
        == I.Penalise(I.Accounts([CLOSED_MARKET], User(0, [FLAT])), 0, 0, 20);
  }

  lemma StaysMargined()
    ensures I.MarginRatio(AFTER) == Ok(I.Margin(59, -1, 100, 5900))
  {
    ShortMargin(FUNDED_MARKET, 60, SHORT);
  }

  /** A user opens a short at a margin ratio of 5900, without a fee, and his trade ends with an update
      that takes more from shorts than his collateral: a full liquidation of him succeeds at once. */
  lemma FundedTradeIsLiquidated()
    ensures I.OpenPosition(I.DEFAULT_CONFIG, BEFORE, 0, Short, 100, 0, LATE) == Ok(AFTER)
    ensures I.MarginRatio(AFTER) == Ok(I.Margin(59, -1, 100, 5900))
    ensures I.Liquidate(I.DEFAULT_CONFIG, AFTER, {}, 0, 3600) == Ok((I.Accounts([CLOSED_MARKET], User(0, [FLAT])), 0))
  {
    OpensLate();
    StaysMargined();
    IsLiquidated();
  }

  lemma SettlesFlat()
    ensures I.Settle(BEFORE) == Ok(BEFORE)
  {
    assert [FLAT][..0] == [] && [] + [FLAT] == [FLAT];
    assert SettlePositions([CALM_MARKET], [FLAT][..0]) == Ok(([], 0));
    assert SettlePositions([CALM_MARKET], [FLAT]) == Ok(([FLAT], 0));
    assert TruncDiv(0, AMM_TO_QUOTE_PRECISION_RATIO) == 0;
  }
}
