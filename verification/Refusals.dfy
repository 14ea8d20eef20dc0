/** Whom open_position refuses for want of collateral, and whom a liquidation cannot touch afterwards. */
module Refusals {
  import opened Numeric
  import opened State
  import opened Curve
  import opened Twap
  import opened Trading
  import opened Funding
  import opened Settling
  import opened TradeEffects
  import opened Outcomes
  import opened Charges
  import opened Openings
  import opened ClearingHouse
  import opened Invariants
  import I = Instructions
  import LazyFunding
  import Margins
  import Runs

  // ----- Trades that do not raise risk are never refused for want of collateral

  lemma {:induction false} SettlingIsNeverShort(markets: seq<Market>, positions: seq<Position>)
    ensures SettlePositions(markets, positions) != Err(InsufficientCollateral)
  {
    if positions != [] {
      SettlingIsNeverShort(markets, positions[..|positions| - 1]);
    }
  }

  lemma {:induction false} ValuingIsNeverShort(markets: seq<Market>, positions: seq<Position>)
    ensures I.MarginTotals(markets, positions) != Err(InsufficientCollateral)
  {
    if positions != [] {
      ValuingIsNeverShort(markets, positions[..|positions| - 1]);
    }
  }

  lemma AveragingIsNeverShort(a: Amm, now: i64, mark: Option<u128>)
    ensures UpdateMarkTwap(a, now, mark) != Err(InsufficientCollateral)
  {
  }

  lemma SwapQuoteIsNeverShort(a: Amm, quote: u128, direction: SwapDirection)
    ensures SwapQuote(a, quote, direction) != Err(InsufficientCollateral)
  {
  }

  lemma SwapBaseIsNeverShort(a: Amm, base: u128, direction: SwapDirection)
    ensures SwapBase(a, base, direction) != Err(InsufficientCollateral)
  {
  }

  lemma SwapsAreNeverShort(a: Amm, amount: u128, direction: SwapDirection, now: i64, mark: Option<u128>)
    ensures SwapQuoteAsset(a, amount, direction, now, mark) != Err(InsufficientCollateral)
    ensures SwapBaseAsset(a, amount, direction, now) != Err(InsufficientCollateral)
  {
    AveragingIsNeverShort(a, now, mark);
    AveragingIsNeverShort(a, now, None);
    if UpdateMarkTwap(a, now, mark).Ok? {
      SwapQuoteIsNeverShort(UpdateMarkTwap(a, now, mark).value, amount, direction);
    }
    if UpdateMarkTwap(a, now, None).Ok? {
      SwapBaseIsNeverShort(UpdateMarkTwap(a, now, None).value, amount, direction);
    }
  }

  lemma IncreasingIsNeverShort(a: I.Accounts, j: nat, direction: PositionDirection, quote: u128, now: i64)
    requires j < |a.user.positions|
    ensures I.IncreaseSlot(a, j, direction, quote, now) != Err(InsufficientCollateral)
  {
    var p := a.user.positions[j];
    if p.marketIndex < |a.markets| {
      SwapsAreNeverShort(a.markets[p.marketIndex].amm, quote, QuoteSwapDirection(direction), now, None);
    }
  }

  lemma RealisingIsNeverShort(p: Position, remaining: i128, quote: u128, collateral: u128)
    ensures RealiseReduction(p, remaining, quote, collateral) != Err(InsufficientCollateral)
  {
  }

  lemma SwappingOffIsNeverShort(direction: PositionDirection, quote: u128, m: Market, p: Position, now: i64, mark: Option<u128>)
    ensures SwapOff(direction, quote, m, p, now, mark) != Err(InsufficientCollateral)
  {
    SwapsAreNeverShort(m.amm, quote, QuoteSwapDirection(direction), now, mark);
  }

  lemma ReducingIsNeverShort(a: I.Accounts, j: nat, direction: PositionDirection, quote: u128, now: i64, mark: Option<u128>)
    requires j < |a.user.positions|
    ensures I.ReduceSlot(a, j, direction, quote, now, mark) != Err(InsufficientCollateral)
  {
    var p := a.user.positions[j];
    if p.marketIndex < |a.markets| {
      var m := a.markets[p.marketIndex];
      SwappingOffIsNeverShort(direction, quote, m, p, now, mark);
      if SwapOff(direction, quote, m, p, now, mark).Ok? {
        var remaining := SwapOff(direction, quote, m, p, now, mark).value.1;
        RealisingIsNeverShort(p, remaining.baseAssetAmount, quote, a.user.collateral);
      }
    }
  }

  lemma ClosingIsNeverShort(a: I.Accounts, j: nat, now: i64)
    requires j < |a.user.positions|
    ensures I.CloseSlot(a, j, now) != Err(InsufficientCollateral)
  {
    var p := a.user.positions[j];
    if p.marketIndex < |a.markets| {
      SwapsAreNeverShort(a.markets[p.marketIndex].amm, Abs(p.baseAssetAmount), SwapDirectionToClose(p.baseAssetAmount), now, None);
    }
  }

  lemma OpeningRestIsNeverShort(closed: I.Accounts, j: nat, direction: PositionDirection, quote: u128, rest: u128,
                                value: u128, size: nat, now: i64)
    requires j < |closed.user.positions|
    ensures I.Reverse(closed, j, direction, quote, rest, value, size, now) != Err(InsufficientCollateral)
  {
    IncreasingIsNeverShort(closed, j, direction, rest, now);
  }

  lemma ReversingIsNeverShort(a: I.Accounts, j: nat, direction: PositionDirection, quote: u128, value: u128, now: i64)
    requires j < |a.user.positions|
    ensures I.Flip(a, j, direction, quote, value, now) != Err(InsufficientCollateral)
  {
    var rest, closing := FitU128(quote - value), I.CloseSlot(a, j, now);
    ClosingIsNeverShort(a, j, now);
    if rest.Ok? && closing.Ok? {
      OpeningRestIsNeverShort(closing.value.0, j, direction, quote, rest.value, value,
                              Abs(a.user.positions[j].baseAssetAmount), now);
    }
  }

  lemma TradingIsNeverShort(a: I.Accounts, j: nat, direction: PositionDirection, quote: u128, now: i64)
    requires j < |a.user.positions| && a.user.positions[j].marketIndex < |a.markets|
    ensures I.Trade(a, j, direction, quote, now) != Err(InsufficientCollateral)
  {
    var p := a.user.positions[j];
    var amm := a.markets[p.marketIndex].amm;
    if I.AddsTo(p.baseAssetAmount, direction) {
      IncreasingIsNeverShort(a, j, direction, quote, now);
    } else if ValueAndPnl(p.baseAssetAmount, p.quoteAssetAmount, amm).Ok? {
      TradingAgainstIsNeverShort(a, j, direction, quote, now);
    }
  }

  lemma TradingAgainstIsNeverShort(a: I.Accounts, j: nat, direction: PositionDirection, quote: u128, now: i64)
    requires j < |a.user.positions| && a.user.positions[j].marketIndex < |a.markets|
    requires var p := a.user.positions[j];
             ValueAndPnl(p.baseAssetAmount, p.quoteAssetAmount, a.markets[p.marketIndex].amm).Ok?
    ensures I.TradeAgainst(a, j, direction, quote, now) != Err(InsufficientCollateral)
  {
    var p := a.user.positions[j];
    var (value, used) := Against(p, a.markets[p.marketIndex].amm, quote);
    ReducingIsNeverShort(a, j, direction, used, now, None);
    ReversingIsNeverShort(a, j, direction, used, value, now);
  }

  lemma SeatingIsNeverShort(a: I.Accounts, index: u64, direction: PositionDirection, quote: u128, inputs: I.TradeInputs)
    requires index < |a.markets|
    ensures I.OpenTrade(a, index, direction, quote, inputs) != Err(InsufficientCollateral)
  {
    if I.TakeSlot(a.user, index).Ok? {
      var (user, j) := I.TakeSlot(a.user, index).value;
      SeatIs(a.user, index);
      var seated := a.(user := user);
      ReadingIsNeverShort(seated, index, inputs.before, inputs.now);
      if I.ReadOracle(seated, index, inputs.before, inputs.now).Ok? {
        ReadOracleReads(seated, index, inputs.before, inputs.now);
        TradingIsNeverShort(I.ReadOracle(seated, index, inputs.before, inputs.now).value, j, direction, quote, inputs.now);
      }
    }
  }

  lemma ReadingIsNeverShort(a: I.Accounts, index: nat, reading: I.OracleReading, now: i64)
    requires index < |a.markets|
    ensures I.ReadOracle(a, index, reading, now) != Err(InsufficientCollateral)
  {
  }

  lemma OracleIsNeverShort(a: Amm, now: i64, oraclePrice: i128)
    ensures UpdateOracleTwap(a, now, oraclePrice) != Err(InsufficientCollateral)
  {
  }

  lemma RatesAreNeverShort(m: Market, rate: i128)
    ensures FundingRateLongShort(m, rate) != Err(InsufficientCollateral)
  {
  }

  lemma AccumulatingIsNeverShort(m: Market, rate: i128, now: i64)
    ensures Accumulate(m, rate, now) != Err(InsufficientCollateral)
  {
    RatesAreNeverShort(m, rate);
  }

  lemma ApplyingIsNeverShort(m: Market, oraclePrice: i128, now: i64)
    ensures ApplyFunding(m, oraclePrice, now) != Err(InsufficientCollateral)
  {
    OracleIsNeverShort(m.amm, now, oraclePrice);
    if UpdateOracleTwap(m.amm, now, oraclePrice).Ok? {
      var oracled := UpdateOracleTwap(m.amm, now, oraclePrice).value;
      AveragingIsNeverShort(oracled, now, None);
      if UpdateMarkTwap(oracled, now, None).Ok? {
        var marked := UpdateMarkTwap(oracled, now, None).value;
        var rate := FundingRate(marked.lastMarkPriceTwap, oracled.lastOraclePriceTwap, m.amm.fundingPeriod);
        if rate.Ok? {
          AccumulatingIsNeverShort(m.(amm := marked), rate.value, now);
        }
      }
    }
  }

  lemma FundingIsNeverShort(a: I.Accounts, index: nat, oraclePrice: i128, blocked: bool, now: i64)
    requires index < |a.markets|
    ensures I.FundMarket(a, index, oraclePrice, blocked, now) != Err(InsufficientCollateral)
  {
    ApplyingIsNeverShort(a.markets[index], oraclePrice, now);
  }

  lemma FinishingIsNeverShort(config: I.Config, t: I.Traded, index: nat, direction: PositionDirection, limitPrice: u128,
                              inputs: I.TradeInputs)
    requires index < |t.accounts.markets| && !t.riskIncreasing
    ensures I.FinishOpen(config, t, index, direction, limitPrice, inputs) != Err(InsufficientCollateral)
  {
    ValuingIsNeverShort(t.accounts.markets, t.accounts.user.positions);
    var charging := I.ChargeFee(t.accounts, index, inputs.userFee, inputs.feeToMarket);
    if charging.Ok? {
      FundingIsNeverShort(charging.value, index, inputs.after.price, inputs.fundingBlocked, inputs.now);
    }
  }

  /** A trade that reduces a position, or reverses it into less than it closed, is never refused for want
      of collateral, whatever the user's margin. */
  lemma LowerRiskIsNeverRefused(config: I.Config, a: I.Accounts, index: u64, direction: PositionDirection, quote: u128,
                                limitPrice: u128, inputs: I.TradeInputs)
    requires index < |a.markets| ==> TightCurve(a.markets[index].amm) && 1 <= a.markets[index].amm.minimumTradeSize
    requires index < |a.markets| && I.Settle(a).Ok? ==>
               !RaisesRisk(Held(I.Settle(a).value.user.positions, index), a.markets[index].amm, direction, quote)
    ensures I.OpenPosition(config, a, index, direction, quote, limitPrice, inputs) != Err(InsufficientCollateral)
  {
    SettlingIsNeverShort(a.markets, a.user.positions);
    if index < |a.markets| && I.Settle(a).Ok? {
      var settled := I.Settle(a).value;
      SeatingIsNeverShort(settled, index, direction, quote, inputs);
      if I.OpenTrade(settled, index, direction, quote, inputs).Ok? {
        var j := OpenTradeReports(settled, index, direction, quote, inputs);
        FinishingIsNeverShort(config, I.OpenTrade(settled, index, direction, quote, inputs).value, index, direction,
                              limitPrice, inputs);
      }
    }
  }

  // ----- After a trade

  /** The initial margin keeps a user out of reach of a liquidation, once he is settled. */
  lemma MarginedIsNotLiquidatable(config: I.Config, a: I.Accounts, blocked: set<u64>, vault: u64, now: i64)
    requires config.marginRatioPartial < config.marginRatioInitial
    requires UpToDate(a.markets, a.user.positions) && InitiallyMargined(config, a)
    ensures I.Liquidate(config, a, blocked, vault, now) == Err(SufficientCollateral)
  {
    NothingLeftToSettle(a.markets, a.user.positions);
    FloorUnique(0, AMM_TO_QUOTE_PRECISION_RATIO, 0);
    assert I.Settle(a) == Ok(a);
  }

  lemma RatesKeepUpToDate(before: seq<Market>, after: seq<Market>, positions: seq<Position>)
    requires UpToDate(before, positions) && |after| == |before|
    requires forall i :: 0 <= i < |before| ==>
               && after[i].amm.cumulativeFundingRateLong == before[i].amm.cumulativeFundingRateLong
               && after[i].amm.cumulativeFundingRateShort == before[i].amm.cumulativeFundingRateShort
    ensures UpToDate(after, positions)
  {
    forall j | 0 <= j < |positions| ensures SlotUpToDate(after, positions[j]) {
      assert SlotUpToDate(before, positions[j]);
    }
  }

  lemma OpenedIsNotLiquidatable(config: I.Config, settled: I.Accounts, index: u64, direction: PositionDirection,
                                quote: u128, inputs: I.TradeInputs, b: I.Accounts, j: nat, c: u128,
                                blocked: set<u64>, vault: u64, now: i64)
    requires config.marginRatioPartial < config.marginRatioInitial
    requires OpenedPays(settled, index, direction, quote, inputs, b, j, c)
    requires OpenedChecked(config, settled, index, direction, quote, inputs, b, c)
    requires !Funds(settled.markets[index].amm, inputs)
    requires RaisesRisk(Held(settled.user.positions, index), settled.markets[index].amm, direction, quote)
    requires UpToDate(settled.markets, b.user.positions)
    ensures I.Liquidate(config, b.(user := b.user.(collateral := c)), blocked, vault, now) == Err(SufficientCollateral)
  {
    RatesKeepUpToDate(settled.markets, b.markets, b.user.positions);
    MarginedIsNotLiquidatable(config, b.(user := b.user.(collateral := c)), blocked, vault, now);
  }

  /** In a sound state, a trade that raised its user's risk and did not move the funding rates leaves him,
      with the fee added back, where no liquidation can touch him. */
  lemma RiskyTradeIsNotLiquidatable(config: I.Config, h: House, u: nat, index: u64, direction: PositionDirection,
                                    quote: u128, limitPrice: u128, inputs: I.TradeInputs, blocked: set<u64>, vault: u64,
                                    now: i64)
    returns (c: u128)
    requires config.marginRatioPartial < config.marginRatioInitial
    requires Sound(h) && u < |h.users| && index < |h.markets| && I.Settle(Load(h, u)).Ok?
    requires I.OpenPosition(config, Load(h, u), index, direction, quote, limitPrice, inputs).Ok?
    requires !Funds(h.markets[index].amm, inputs)
    requires RaisesRisk(Held(I.Settle(Load(h, u)).value.user.positions, index), h.markets[index].amm, direction, quote)
    ensures var b := I.OpenPosition(config, Load(h, u), index, direction, quote, limitPrice, inputs).value;
            && b.user.collateral == Max(c - inputs.userFee, 0)
            && I.Liquidate(config, b.(user := b.user.(collateral := c)), blocked, vault, now) == Err(SufficientCollateral)
  {
    var settled := I.Settle(Load(h, u)).value;
    var b := I.OpenPosition(config, Load(h, u), index, direction, quote, limitPrice, inputs).value;
    assert CurveSound(h.markets[index]);
    var j;
    j, c := OpenPositionDoes(config, Load(h, u), index, direction, quote, limitPrice, inputs);
    LazyFunding.OpenPositionSettles(config, h, u, index, direction, quote, limitPrice, inputs);
    OpenedIsNotLiquidatable(config, settled, index, direction, quote, inputs, b, j, c, blocked, vault, now);
  }

  /** Whatever the state of the funding, a trade that raised its user's risk leaves him, with the fee added
      back, safe from liquidation unless settling him takes from his collateral. */
  lemma RiskyTradeIsSafeUntilSettled(config: I.Config, a: I.Accounts, index: u64, direction: PositionDirection,
                                     quote: u128, limitPrice: u128, inputs: I.TradeInputs, blocked: set<u64>, vault: u64,
                                     now: i64)
    returns (c: u128)
    requires config.marginRatioPartial < config.marginRatioInitial
    requires index < |a.markets| && TightCurve(a.markets[index].amm) && 1 <= a.markets[index].amm.minimumTradeSize
    requires I.OpenPosition(config, a, index, direction, quote, limitPrice, inputs).Ok? && I.Settle(a).Ok?
    requires RaisesRisk(Held(I.Settle(a).value.user.positions, index), a.markets[index].amm, direction, quote)
    ensures var b := I.OpenPosition(config, a, index, direction, quote, limitPrice, inputs).value;
            var restored := b.(user := b.user.(collateral := c));
            && b.user.collateral == Max(c - inputs.userFee, 0)
            && ((I.Settle(restored).Ok? && I.Settle(restored).value.user.collateral < c)
                || I.Liquidate(config, restored, blocked, vault, now).Err?)
  {
    var b := I.OpenPosition(config, a, index, direction, quote, limitPrice, inputs).value;
    var j;
    j, c := OpenPositionDoes(config, a, index, direction, quote, limitPrice, inputs);
    var restored := b.(user := b.user.(collateral := c));
    assert InitiallyMargined(config, restored);
    if I.Settle(restored).Ok? ==> c <= I.Settle(restored).value.user.collateral {
      Margins.MarginedIsNotLiquidated(config, restored, blocked, vault, now);
    }
  }

  // ----- close_position

  /** A user without an open position in the market has none to close. */
  lemma NothingToClose(a: I.Accounts, index: u64, inputs: I.TradeInputs)
    requires index < |a.markets| && a.markets[index].initialized && I.Settle(a).Ok?
    requires forall k :: 0 <= k < |a.user.positions| ==> !a.user.positions[k].IsFor(index)
    ensures I.ClosePosition(a, index, inputs) == Err(UserHasNoPositionInMarket)
  {
    var settled := I.Settle(a).value;
    Runs.SettlingKeepsExposure(a.markets, a.user.positions);
    forall k | 0 <= k < |settled.user.positions| ensures !settled.user.positions[k].IsFor(index) {
      assert !a.user.positions[k].IsFor(index);
    }
  }

  /** A close never takes the mark price out of the reach of a valid oracle. */
  lemma CloseConverges(a: I.Accounts, index: u64, inputs: I.TradeInputs)
    requires I.ClosePosition(a, index, inputs).Ok?
    ensures Convergent(inputs.before, inputs.after, inputs.after.valid, false)
  {
    var settled := I.Settle(a).value;
    var j := I.FindSlot(settled.user.positions, index, 0).value;
    var closed := I.CloseSlot(settled, j, inputs.now).value.0;
    FinishConverges(closed, index, inputs);
  }

  lemma FinishConverges(closed: I.Accounts, index: nat, inputs: I.TradeInputs)
    requires index < |closed.markets| && I.FinishClose(closed, index, inputs).Ok?
    ensures Convergent(inputs.before, inputs.after, inputs.after.valid, false)
  {
    DivergenceIff(inputs.before, inputs.after, inputs.after.valid, false);
  }
}
