/** Concrete accounts on which liquidations and funding updates succeed: the premises of the theorems
    about them can be met. */
module Examples {
  import opened Numeric
  import opened State
  import opened Curve
  import opened Twap
  import opened Trading
  import opened Funding
  import opened FundingRates
  import opened FundingBalance
  import opened Aggregates
  import opened ClearingHouse
  import opened Invariants
  import opened Liquidation
  import I = Instructions

  /** A curve with root 1000 at a peg of 10^10, from which one user has bought a hundred base units. */
  const LONG_AMM := Amm(900, 1111, 1000, 10_000_000_000, 1, 0, 0, 0, 0, 3600, 1, 1, 0, 100_000_000_000_000_000, 0, 0, 0, 0)
  const LONG_MARKET := Market(true, 100, 0, 100, 1, LONG_AMM)

  /** The user, his collateral as given, entered at what the position is worth now. */
  function LongUser(collateral: u128): User {
    User(collateral, [Position(0, 100, 111, 0, 0)])
  }

  function LongAccounts(collateral: u128): I.Accounts {
    I.Accounts([LONG_MARKET], LongUser(collateral))
  }

  lemma LongValue()
    ensures ValueAndPnl(100, 111, LONG_AMM) == Ok((111, 0))
  {
    assert SwapOutput(100, 900, Add, 1000) == Ok((1000, 1000));
    assert ReserveToAsset(111, 10_000_000_000) == Ok(111);
  }

  lemma LongMargin(collateral: u128)
    requires 0 < collateral < 100
    ensures I.MarginRatio(LongAccounts(collateral)) == Ok(I.Margin(collateral, 0, 111, collateral * 10_000 / 111))
  {
    LongValue();
    var a := LongAccounts(collateral);
    assert a.user.positions[..0] == [];
    assert I.MarginTotals(a.markets, a.user.positions[..0]) == Ok((0, 0));
    assert I.MarginTotals(a.markets, a.user.positions) == Ok((111, 0));
  }

  /** The average of the mark price after a first update at the price of this curve. */
  const AVERAGE := 100_006_512_345_679_012

  lemma LongPrice()
    ensures MarkPrice(LONG_AMM) == Ok(123_444_444_444_444_444)
    ensures UpdateMarkTwap(LONG_AMM, 0, None) == Ok(LONG_AMM.(lastMarkPriceTwap := AVERAGE))
    ensures UpdateMarkTwap(LONG_AMM, 0, Some(123_444_444_444_444_444)) == Ok(LONG_AMM.(lastMarkPriceTwap := AVERAGE))
  {
    assert MarkPrice(LONG_AMM) == Ok(123_444_444_444_444_444);
    assert WeightedAverage(123_444_444_444_444_444, 100_000_000_000_000_000, 1, 3599) == Ok(AVERAGE);
  }

  const CLOSED_MARKET := Market(true, 0, 0, 0, 0,
    LONG_AMM.(baseAssetReserve := 1000, quoteAssetReserve := 1000, lastMarkPriceTwap := AVERAGE))

  lemma LongCloses(collateral: u128)
    requires 0 < collateral < 100
    ensures Close(collateral, LONG_MARKET, Position(0, 100, 111, 0, 0), 0)
         == Ok((CLOSED_MARKET, EMPTY_POSITION, collateral, 111))
    ensures MarkPrice(CLOSED_MARKET.amm) == Ok(100_000_000_000_000_000)
  {
    LongPrice();
    assert SwapOutput(100, 900, Add, 1000) == Ok((1000, 1000));
    assert ReserveToAsset(111, 10_000_000_000) == Ok(111);
  }

  /** With a collateral of 5 the user is fully liquidated: the premises of the theorem on full
      liquidation hold, and the loop closes 111 and leaves 5. */
  lemma FullLiquidationHappens()
    ensures OneSlotPerMarket(LongAccounts(5).user.positions)
    ensures I.MarginRatio(LongAccounts(5)) == Ok(I.Margin(5, 0, 111, 450))
    ensures I.LiquidateSlots(LongAccounts(5), 1, {}, 0)
         == Ok((I.Accounts([CLOSED_MARKET], User(5, [EMPTY_POSITION])), 111))
  {
    LongMargin(5);
    LongPrice();
    LongCloses(5);
    var a := LongAccounts(5);
    assert I.Store(a, 0, CLOSED_MARKET, EMPTY_POSITION, 5) == I.Accounts([CLOSED_MARKET], User(5, [EMPTY_POSITION]));
    assert I.LiquidateSlot(a, 0, {}, 0) == Ok((I.Accounts([CLOSED_MARKET], User(5, [EMPTY_POSITION])), 111));
    assert I.LiquidateSlots(a, 0, {}, 0) == Ok((a, 0));
  }

  const TRIMMED_MARKET := Market(true, 78, 0, 78, 1,
    LONG_AMM.(baseAssetReserve := 922, quoteAssetReserve := 1084, lastMarkPriceTwap := AVERAGE))

  lemma LongReduces()
    ensures Reduce(Short, 27, 6, LONG_MARKET, Position(0, 100, 111, 0, 0), 0, Some(123_444_444_444_444_444))
         == Ok((TRIMMED_MARKET, Position(0, 78, 87, 0, 0), 9, -22))
    ensures MarkPrice(TRIMMED_MARKET.amm).Ok?
  {
    LongPrice();
    assert AssetToReserve(27, 10_000_000_000) == Ok(27);
    assert SwapOutput(27, 1111, Remove, 1000) == Ok((922, 1084));
    assert EntryClosed(Position(0, 100, 111, 0, 0), 78) == Ok(24);
    assert ReducePnl(78, 27, 24) == Ok(3);
  }

  const TRIMMED := I.Accounts([TRIMMED_MARKET], User(9, [Position(0, 78, 87, 0, 0)]))

  lemma LongTrims()
    ensures I.TrimSlot(I.DEFAULT_CONFIG, LongAccounts(6), 0, {}, 0) == Ok((TRIMMED, 27))
  {
    LongValue();
    LongPrice();
    LongReduces();
    assert I.PartialValue(I.DEFAULT_CONFIG, 111) == Ok(27);
    assert I.Store(LongAccounts(6), 0, TRIMMED_MARKET, Position(0, 78, 87, 0, 0), 9) == TRIMMED;
  }

  lemma TrimmedMarginRatio()
    ensures I.MarginRatio(TRIMMED) == Ok(I.Margin(6, -3, 84, 714))
  {
    assert SwapOutput(78, 922, Add, 1000) == Ok((1000, 1000));
    assert ReserveToAsset(84, 10_000_000_000) == Ok(84);
    assert ValueAndPnl(78, 87, TRIMMED_MARKET.amm) == Ok((84, -3));
    assert TRIMMED.user.positions[..0] == [];
    assert I.MarginTotals(TRIMMED.markets, TRIMMED.user.positions[..0]) == Ok((0, 0));
    assert I.MarginTotals(TRIMMED.markets, TRIMMED.user.positions) == Ok((84, -3));
  }

  /** A partial liquidation of a user with a single slot is one step and the penalty. */
  lemma OneSlotLiquidation(config: I.Config, a: I.Accounts, margin: I.Margin, vault: u64, now: i64, fee: u128)
    requires |a.user.positions| == 1 && I.TrimSlot(config, a, 0, {}, now).Ok?
    requires config.marginRatioMaintenance < margin.marginRatio
    requires I.Fraction(margin.totalCollateral, config.partialPenaltyNumerator, config.partialPenaltyDenominator) == Ok(fee)
    ensures I.LiquidateSettled(config, a, margin, {}, vault, now)
         == I.Penalise(I.TrimSlot(config, a, 0, {}, now).value.0, fee, vault, config.partialLiquidatorShareDenominator)
  {
    assert I.TrimSlots(config, a, 0, {}, now) == Ok((a, 0));
    assert I.TrimSlots(config, a, 1, {}, now) == I.TrimSlot(config, a, 0, {}, now);
  }

  lemma LongIsLiquid(collateral: u128)
    ensures OnlyOpen(LongAccounts(collateral).user.positions, 0) && LiquidMarket(LongAccounts(collateral), 0)
  {
    FloorUnique(1000 * 1000, 900, 1111);
  }

  /** With a collateral of 6, at a margin ratio of 540, he is partially liquidated: the premises of the
      theorem on partial liquidation hold, and the ratio rises to 714. */
  lemma PartialLiquidationHappens()
    ensures I.LiquidateSettled(I.DEFAULT_CONFIG, LongAccounts(6), I.Margin(6, 0, 111, 540), {}, 0, 0) == Ok((TRIMMED, 0))
  {
    LongTrims();
    OneSlotLiquidation(I.DEFAULT_CONFIG, LongAccounts(6), I.Margin(6, 0, 111, 540), 0, 0, 0);
  }

  // ----- A funding update

  const SKEWED_AMM := Amm(1_020_000_000_000_000, 980_392_156_862_745, 1_000_000_000_000_000, 1000, 10_000_000,
    0, 0, 0, 0, 3600, 9_000_000_000, 9_000_000_000, 0, 9_600_000_000, 0, 1000, 1500, 0)

  /** A market net short by twenty trillion base units, its mark above its oracle, its pool 1000 above
      its floor. */
  const SKEWED_MARKET := Market(true, 10_000_000_000_000, -30_000_000_000_000, -20_000_000_000_000, 2, SKEWED_AMM)

  const PAYER := User(10_000, [Position(0, 10_000_000_000_000, 96_000, 0, 0)])

  const RECEIVER := User(100_000, [Position(0, -30_000_000_000_000, 290_000, 0, 0)])

  const AVERAGED_AMM := SKEWED_AMM.(lastMarkPriceTwap := 9_611_684_566, lastMarkPriceTwapTs := 3600,
                                    lastOraclePriceTwapTs := 3600)

  /** The market an hour on: longs pay the whole rate, shorts receive about half of it, the pool gives two
      thirds of its excess. */
  const FUNDED_MARKET := SKEWED_MARKET.(amm := AVERAGED_AMM.(
    totalFeeMinusDistributions := 834, cumulativeFundingRateLong := 113_636_363_333,
    cumulativeFundingRateShort := 60_033_333_333, lastFundingRate := 113_636_363_333, lastFundingRateTs := 3600))

  lemma SkewedAverages()
    ensures UpdateOracleTwap(SKEWED_AMM, 3600, 9_000_000_000) == Ok(SKEWED_AMM.(lastOraclePriceTwapTs := 3600))
    ensures UpdateMarkTwap(SKEWED_AMM.(lastOraclePriceTwapTs := 3600), 3600, None) == Ok(AVERAGED_AMM)
  {
    assert WeightedAverage(9_000_000_000, 9_000_000_000, 3600, 1) == Ok(9_000_000_000);
    assert MarkPrice(SKEWED_AMM) == Ok(9_611_687_812);
    assert WeightedAverage(9_611_687_812, 9_600_000_000, 3600, 1) == Ok(9_611_684_566);
  }

  lemma SkewedRate()
    ensures FundingRate(9_611_684_566, 9_000_000_000, 3600) == Ok(113_636_363_333)
  {
    assert PeriodAdjustment(3600) == 24;
    assert DivI(9_000_000_000, 33) == Ok(272_727_272);
    assert DivI(2_727_272_720_000, 24) == Ok(113_636_363_333);
  }

  lemma SkewedRates()
    ensures FundingRateLongShort(SKEWED_MARKET.(amm := AVERAGED_AMM), 113_636_363_333)
         == Ok((SKEWED_MARKET.(amm := AVERAGED_AMM.(totalFeeMinusDistributions := 834)), 113_636_363_333, 60_033_333_333))
  {
    assert FundingPaymentInQuote(113_636_363_333, -20_000_000_000_000) == Ok(2272);
    assert FundingPaymentInQuote(113_636_363_333, 10_000_000_000_000) == Ok(-1136);
    assert RateFromPnlLimit(-1802, -30_000_000_000_000) == Ok(60_033_333_333);
  }

  lemma SkewedMarketIsFunded()
    ensures ApplyFunding(SKEWED_MARKET, 9_000_000_000, 3600) == Ok(FUNDED_MARKET)
  {
    SkewedAverages();
    SkewedRate();
    SkewedRates();
  }

  lemma SideSettles(markets: seq<Market>, collateral: u128, p: Position, p': Position, payment: i128, inQuote: i128)
    requires SettlePosition(markets, p) == Ok((p', payment)) && TruncDiv(payment, AMM_TO_QUOTE_PRECISION_RATIO) == inQuote
    requires 0 <= collateral + inQuote < 1_000_000
    ensures SettlesInFull(markets, User(collateral, [p]))
    ensures SettleUser(markets, User(collateral, [p])) == Ok(User(collateral + inQuote, [p']))
  {
    assert [p][..0] == [];
    assert SettlePositions(markets, [p][..0]) == Ok(([], 0));
    assert [] + [p'] == [p'];
    assert SettlePositions(markets, [p]) == Ok(([p'], payment));
  }

  lemma SidesSettle()
    ensures SettlesInFull([FUNDED_MARKET], PAYER) && SettleUser([FUNDED_MARKET], PAYER).value.collateral == 8864
    ensures SettlesInFull([FUNDED_MARKET], RECEIVER) && SettleUser([FUNDED_MARKET], RECEIVER).value.collateral == 101_800
  {
    var payer, receiver := PAYER.positions[0], RECEIVER.positions[0];
    assert FundingPayment(113_636_363_333, 10_000_000_000_000) == Ok(-11_363_636_333);
    assert FundingPayment(60_033_333_333, -30_000_000_000_000) == Ok(18_009_999_999);
    SideSettles([FUNDED_MARKET], 10_000, payer,
                payer.(lastCumulativeFundingRate := 113_636_363_333, lastFundingRateTs := 3600), -11_363_636_333, -1136);
    SideSettles([FUNDED_MARKET], 100_000, receiver,
                receiver.(lastCumulativeFundingRate := 60_033_333_333, lastFundingRateTs := 3600), 18_009_999_999, 1800);
  }

  lemma SideTotals(measure: Measure)
    ensures UsersTotal([PAYER, RECEIVER], 0, measure)
         == Weight(PAYER.positions[0], 0, measure) + Weight(RECEIVER.positions[0], 0, measure)
  {
    assert [PAYER, RECEIVER][..1] == [PAYER] && [PAYER][..0] == [];
    assert SlotsTotal(PAYER.positions, 0, measure) == SlotsTotal([], 0, measure) + Weight(PAYER.positions[0], 0, measure);
    assert SlotsTotal(RECEIVER.positions, 0, measure) == SlotsTotal([], 0, measure) + Weight(RECEIVER.positions[0], 0, measure);
    assert UsersTotal([PAYER], 0, measure) == UsersTotal([], 0, measure) + SlotsTotal(PAYER.positions, 0, measure);
  }

  /** A capped update: the long pays 1136, the short receives 1800 and the pool gives 666. The premises
      of the theorem on funding hold. */
  lemma FundingUpdateHappens()
    ensures Balanced(SKEWED_MARKET) && ApplyFunding(SKEWED_MARKET, 9_000_000_000, 3600) == Ok(FUNDED_MARKET)
    ensures SKEWED_MARKET.baseAssetAmountLong == UsersTotal([PAYER, RECEIVER], 0, LongBase)
    ensures SKEWED_MARKET.baseAssetAmountShort == UsersTotal([PAYER, RECEIVER], 0, ShortBase)
    ensures SingleSettled(PAYER.positions, 0, SKEWED_AMM) && SettlesInFull([FUNDED_MARKET], PAYER)
    ensures SingleSettled(RECEIVER.positions, 0, SKEWED_AMM) && SettlesInFull([FUNDED_MARKET], RECEIVER)
  {
    SkewedMarketIsFunded();
    SideTotals(LongBase);
    SideTotals(ShortBase);
    SidesSettle();
  }
}
