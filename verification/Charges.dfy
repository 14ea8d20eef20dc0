/** What opening and closing a position cost: what the user pays, what the fee counters and the oracle
    values of the market become, and what is left alone. */
module Charges {
  import opened Numeric
  import opened State
  import opened Trading
  import opened Equity
  import opened Funding
  import opened FundingRates
  import opened TradeEffects
  import opened Shapes
  import I = Instructions

  /** Whether an instruction ends with an update of its market's funding. */
  predicate Funds(a: Amm, inputs: I.TradeInputs) {
    !inputs.fundingBlocked && UpdateDue(a.lastFundingRateTs, a.fundingPeriod, inputs.now)
  }

  /** The same reserves, root, peg, minimum trade and clock period: all that values and trades read. */
  predicate SameReserves(a: Amm, a': Amm) {
    && a'.baseAssetReserve == a.baseAssetReserve && a'.quoteAssetReserve == a.quoteAssetReserve
    && a'.sqrtK == a.sqrtK && a'.pegMultiplier == a.pegMultiplier && a'.minimumTradeSize == a.minimumTradeSize
    && a'.fundingPeriod == a.fundingPeriod
  }

  /** A market once a fee has been charged and, unless it was not to be, its funding updated. */
  predicate ChargedMarket(m: Market, m': Market, fee: int, funds: bool) {
    && m' == m.(amm := m'.amm) && SameReserves(m.amm, m'.amm)
    && m'.amm.totalFee == m.amm.totalFee + fee
    && m'.amm.totalFeeWithdrawn == m.amm.totalFeeWithdrawn
    && (!funds ==>
          && m'.amm.totalFeeMinusDistributions == m.amm.totalFeeMinusDistributions + fee
          && m'.amm.cumulativeFundingRateLong == m.amm.cumulativeFundingRateLong
          && m'.amm.cumulativeFundingRateShort == m.amm.cumulativeFundingRateShort
          && m'.amm.lastFundingRateTs == m.amm.lastFundingRateTs)
    && (funds ==> m'.amm.totalFeeMinusDistributions
                  >= m.amm.totalFeeMinusDistributions + fee
                     - Max(m.amm.totalFeeMinusDistributions + fee - m'.amm.totalFee / 2, 0) * 2 / 3)
  }

  /** The accounts after the charges of a trade: the user's fee, and the market. */
  predicate Charged(t: I.Accounts, b: I.Accounts, index: nat, userFee: nat, fee: int, funds: bool) {
    && index < |t.markets| == |b.markets| && b.markets == t.markets[index := b.markets[index]]
    && ChargedMarket(t.markets[index], b.markets[index], fee, funds)
    && b.user == t.user.(collateral := Max(t.user.collateral - userFee, 0))
  }

  lemma FundMarketCharges(a: I.Accounts, index: nat, oraclePrice: i128, inputs: I.TradeInputs)
    requires index < |a.markets| && I.FundMarket(a, index, oraclePrice, inputs.fundingBlocked, inputs.now).Ok?
    ensures var b := I.FundMarket(a, index, oraclePrice, inputs.fundingBlocked, inputs.now).value;
            && Charged(a, b, index, 0, 0, Funds(a.markets[index].amm, inputs))
            && (if Funds(a.markets[index].amm, inputs)
                then ApplyFunding(a.markets[index], oraclePrice, inputs.now) == Ok(b.markets[index])
                else b == a)
  {
    var m := a.markets[index];
    if Funds(m.amm, inputs) {
      ApplyFundingShape(m, oraclePrice, inputs.now);
      var m' := ApplyFunding(m, oraclePrice, inputs.now).value;
      FundingSpendsExcessOnly(Averaged(m, oraclePrice, inputs.now), m'.amm.lastFundingRate);
    } else {
      assert a.markets[index := m] == a.markets;
    }
  }

  lemma FinishOpenCharges(config: I.Config, t: I.Traded, index: nat, direction: PositionDirection, limitPrice: u128,
                          inputs: I.TradeInputs)
    requires index < |t.accounts.markets|
    requires I.FinishOpen(config, t, index, direction, limitPrice, inputs).Ok?
    ensures Charged(t.accounts, I.FinishOpen(config, t, index, direction, limitPrice, inputs).value, index,
                    inputs.userFee, inputs.feeToMarket, Funds(t.accounts.markets[index].amm, inputs))
  {
    var charged := I.ChargeFee(t.accounts, index, inputs.userFee, inputs.feeToMarket).value;
    FundMarketCharges(charged, index, inputs.after.price, inputs);
  }

  lemma FinishCloseCharges(a: I.Accounts, index: nat, inputs: I.TradeInputs)
    requires index < |a.markets| && I.FinishClose(a, index, inputs).Ok?
    ensures Charged(a, I.FinishClose(a, index, inputs).value, index, inputs.userFee, inputs.feeToMarket,
                    Funds(a.markets[index].amm, inputs))
  {
    var charged := I.ChargeFee(a, index, inputs.userFee, inputs.feeToMarket).value;
    var read := I.ReadOracle(charged, index, inputs.after, inputs.now).value;
    FundMarketCharges(read, index, inputs.after.price, inputs);
  }

  // ----- close_position

  /** Closing a slot pays its valuation's profit, clamped at zero, and clears it. */
  lemma ClosePays(a: I.Accounts, j: nat, now: i64)
    requires j < |a.user.positions| && a.user.positions[j].IsOpen() && I.CloseSlot(a, j, now).Ok?
    ensures var p, b := a.user.positions[j], I.CloseSlot(a, j, now).value.0;
            && p.marketIndex < |a.markets| && AllTraded(a.markets, b.markets)
            && ValueAndPnl(p.baseAssetAmount, p.quoteAssetAmount, a.markets[p.marketIndex].amm).Ok?
            && b.user.collateral == Max(a.user.collateral
                 + ValueAndPnl(p.baseAssetAmount, p.quoteAssetAmount, a.markets[p.marketIndex].amm).value.1, 0)
            && b.user.positions == a.user.positions[j := Position(p.marketIndex, 0, 0, 0, 0)]
  {
    var p := a.user.positions[j];
    CloseRealisesValuation(a.user.collateral, a.markets[p.marketIndex], p, now);
    CloseShape(a.user.collateral, a.markets[p.marketIndex], p, now);
    CloseEffect(a, j, now);
  }

  /** The collateral of a user once a position has been closed and a fee paid. */
  function ClosedCollateral(collateral: nat, p: Position, a: Amm, fee: nat): nat
    requires ValueAndPnl(p.baseAssetAmount, p.quoteAssetAmount, a).Ok?
  {
    Max(Max(collateral + ValueAndPnl(p.baseAssetAmount, p.quoteAssetAmount, a).value.1, 0) - fee, 0)
  }

  lemma CloseSettledCharges(a: I.Accounts, index: u64, j: nat, inputs: I.TradeInputs)
    requires index < |a.markets| && I.CloseSettled(a, index, inputs).Ok?
    requires I.FindSlot(a.user.positions, index, 0) == Some(j)
    ensures I.CloseSlot(a, j, inputs.now).Ok?
    ensures Charged(I.CloseSlot(a, j, inputs.now).value.0, I.CloseSettled(a, index, inputs).value, index,
                    inputs.userFee, inputs.feeToMarket,
                    Funds(I.CloseSlot(a, j, inputs.now).value.0.markets[index].amm, inputs))
  {
    var closed := I.CloseSlot(a, j, inputs.now).value.0;
    FinishCloseCharges(closed, index, inputs);
  }

  /** A close pays the user the profit its valuation predicts, clamped at zero, and then takes his fee,
      clamped at zero; the market's fee goes to the total of fees in full, and to the pool in full
      unless funding is updated. */
  lemma ClosePositionCharges(a: I.Accounts, index: u64, inputs: I.TradeInputs)
    requires I.ClosePosition(a, index, inputs).Ok?
    ensures index < |a.markets| && I.Settle(a).Ok?
    ensures var settled, b := I.Settle(a).value, I.ClosePosition(a, index, inputs).value;
            && I.FindSlot(settled.user.positions, index, 0).Some?
            && var j := I.FindSlot(settled.user.positions, index, 0).value;
               var p, amm, amm' := settled.user.positions[j], a.markets[index].amm, b.markets[index].amm;
               && ValueAndPnl(p.baseAssetAmount, p.quoteAssetAmount, amm).Ok?
               && b.user.collateral == ClosedCollateral(settled.user.collateral, p, amm, inputs.userFee)
               && b.user.positions == settled.user.positions[j := Position(index, 0, 0, 0, 0)]
               && amm'.totalFee == amm.totalFee + inputs.feeToMarket
               && amm'.totalFeeWithdrawn == amm.totalFeeWithdrawn
               && (!Funds(amm, inputs) ==>
                     amm'.totalFeeMinusDistributions == amm.totalFeeMinusDistributions + inputs.feeToMarket)
  {
    var settled := I.Settle(a).value;
    var j := I.FindSlot(settled.user.positions, index, 0).value;
    CloseSettledCharges(settled, index, j, inputs);
    ClosePays(settled, j, inputs.now);
  }
}
