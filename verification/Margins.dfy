/** What a margin ratio measures, and what deposits, withdrawals and liquidations make of it. */
module Margins {
  import opened Numeric
  import opened State
  import opened Trading
  import opened Funding
  import opened Settling
  import I = Instructions

  /** A margin ratio is the collateral with the unrealised profit, clamped at zero, in ten-thousandths of
      the value of the open positions, floored; without a value it is the largest number. */
  predicate Measures(margin: I.Margin, collateral: nat, value: nat, pnl: int) {
    && margin.baseAssetValue == value && margin.unrealizedPnl == pnl
    && if value == 0 then margin.marginRatio == I.U128_MAX else
         && margin.totalCollateral == Max(collateral + pnl, 0)
         && margin.marginRatio * value <= margin.totalCollateral * 10_000 < (margin.marginRatio + 1) * value
  }

  lemma RatioBounds(total: nat, value: nat, ratio: nat)
    requires 0 < value && ratio == total * 10_000 / value
    ensures ratio * value <= total * 10_000 < (ratio + 1) * value
  {
    FloorBounds(total * 10_000, value);
  }

  lemma RatioShape(a: I.Accounts)
    requires I.MarginRatio(a).Ok?
    ensures I.MarginTotals(a.markets, a.user.positions).Ok?
    ensures var (value, pnl) := I.MarginTotals(a.markets, a.user.positions).value;
            var margin := I.MarginRatio(a).value;
            && margin.baseAssetValue == value && margin.unrealizedPnl == pnl
            && if value == 0 then margin.marginRatio == I.U128_MAX else
                 && margin.totalCollateral == Max(a.user.collateral + pnl, 0)
                 && margin.marginRatio == margin.totalCollateral * 10_000 / value
  {
  }

  lemma RatioMeasures(a: I.Accounts)
    requires I.MarginRatio(a).Ok?
    ensures I.MarginTotals(a.markets, a.user.positions).Ok?
    ensures var (value, pnl) := I.MarginTotals(a.markets, a.user.positions).value;
            Measures(I.MarginRatio(a).value, a.user.collateral, value, pnl)
  {
    RatioShape(a);
    var (value, pnl) := I.MarginTotals(a.markets, a.user.positions).value;
    if value != 0 {
      RatioBounds(Max(a.user.collateral + pnl, 0), value, I.MarginRatio(a).value.marginRatio);
    }
  }

  // ----- More collateral, and settled slots

  lemma RatioGrows(total: nat, total': nat, value: nat)
    requires total <= total' && 0 < value
    ensures total * 10_000 / value <= total' * 10_000 / value
  {
    FloorMono(total * 10_000, total' * 10_000, value);
  }

  /** The same slots but for how far they are settled. */
  predicate SameHoldings(before: seq<Position>, after: seq<Position>) {
    && |after| == |before|
    && forall j :: 0 <= j < |before| ==>
         && after[j].marketIndex == before[j].marketIndex
         && after[j].baseAssetAmount == before[j].baseAssetAmount
         && after[j].quoteAssetAmount == before[j].quoteAssetAmount
  }

  lemma {:induction false} HoldingsTotals(markets: seq<Market>, before: seq<Position>, after: seq<Position>)
    requires SameHoldings(before, after)
    ensures I.MarginTotals(markets, after) == I.MarginTotals(markets, before)
  {
    if before != [] {
      var n := |before| - 1;
      HoldingsTotals(markets, before[..n], after[..n]);
      var p, p' := before[n], after[n];
      assert p'.baseAssetAmount == p.baseAssetAmount && p'.quoteAssetAmount == p.quoteAssetAmount;
      assert p'.marketIndex == p.marketIndex;
      if p.marketIndex < |markets| {
        var amm := markets[p.marketIndex].amm;
        assert ValueAndPnl(p'.baseAssetAmount, p'.quoteAssetAmount, amm)
            == ValueAndPnl(p.baseAssetAmount, p.quoteAssetAmount, amm);
      }
    }
  }

  /** On the same holdings, more collateral never means a lower ratio. */
  lemma MoreCollateralMoreMargin(a: I.Accounts, b: I.Accounts)
    requires b.markets == a.markets && SameHoldings(a.user.positions, b.user.positions)
    requires a.user.collateral <= b.user.collateral && I.MarginRatio(a).Ok? && I.MarginRatio(b).Ok?
    ensures I.MarginRatio(a).value.marginRatio <= I.MarginRatio(b).value.marginRatio
  {
    HoldingsTotals(a.markets, a.user.positions, b.user.positions);
    var (value, pnl) := I.MarginTotals(a.markets, a.user.positions).value;
    if value != 0 {
      RatioGrows(Max(a.user.collateral + pnl, 0), Max(b.user.collateral + pnl, 0), value);
    }
  }

  lemma SettlingKeepsHoldings(markets: seq<Market>, positions: seq<Position>)
    requires SettlePositions(markets, positions).Ok?
    ensures SameHoldings(positions, SettlePositions(markets, positions).value.0)
  {
    forall j | 0 <= j < |positions|
      ensures Settled(markets, positions[j], SettlePositions(markets, positions).value.0[j])
    {
      SettlesEverySlot(markets, positions, j);
    }
  }

  /** Whoever has the initial margin, and does not lose by being settled, cannot be liquidated. */
  lemma MarginedIsNotLiquidated(config: I.Config, a: I.Accounts, blocked: set<u64>, vault: u64, now: i64)
    requires config.marginRatioPartial < config.marginRatioInitial
    requires I.MarginRatio(a).Ok? && I.MarginRatio(a).value.marginRatio >= config.marginRatioInitial
    requires I.Settle(a).Ok? ==> a.user.collateral <= I.Settle(a).value.user.collateral
    ensures I.Liquidate(config, a, blocked, vault, now).Err?
  {
    if I.Settle(a).Ok? && I.MarginRatio(I.Settle(a).value).Ok? {
      SettlingKeepsHoldings(a.markets, a.user.positions);
      MoreCollateralMoreMargin(a, I.Settle(a).value);
    }
  }

  // ----- Deposits

  /** A deposit is refused if it is of nothing; one that succeeds credits the amount and settles, so a loss
      of the settlement is taken from the amount as well. */
  lemma DepositCredits(a: I.Accounts, amount: u64)
    ensures amount == 0 ==> I.Deposit(a, amount) == Err(InsufficientDeposit)
    ensures I.Deposit(a, amount).Ok? ==>
              var b := I.Deposit(a, amount).value;
              && SettlePositions(a.markets, a.user.positions).Ok? && b.markets == a.markets
              && b.user.collateral
                 == Max(a.user.collateral + amount
                        + TruncDiv(SettlePositions(a.markets, a.user.positions).value.1, AMM_TO_QUOTE_PRECISION_RATIO), 0)
              && SameHoldings(a.user.positions, b.user.positions) && UpToDate(a.markets, b.user.positions)
  {
    if I.Deposit(a, amount).Ok? {
      SettlingKeepsHoldings(a.markets, a.user.positions);
      SettlingTracks(a.markets, a.user.positions);
    }
  }

  // ----- Withdrawals

  /** What is left of settled accounts after a payment. */
  function PaidOut(settled: I.Accounts, amount: nat, available: nat): I.Accounts
    requires amount <= settled.user.collateral
  {
    var left: u128 := settled.user.collateral - Min(amount, available);
    settled.(user := settled.user.(collateral := left))
  }

  /** A settled user is paid if and only if he asks for no more than his collateral and keeps the initial
      margin without it; a margin that can be computed and falls short is the error. */
  lemma WithdrawSucceedsIff(config: I.Config, a: I.Accounts, amount: u64, available: u64)
    requires I.Settle(a).Ok?
    ensures var settled, r := I.Settle(a).value, I.Withdraw(config, a, amount, available);
            && (r.Ok? <==>
                  && amount <= settled.user.collateral
                  && I.MarginRatio(PaidOut(settled, amount, available)).Ok?
                  && I.MarginRatio(PaidOut(settled, amount, available)).value.marginRatio >= config.marginRatioInitial)
            && (r.Ok? ==> r.value == PaidOut(settled, amount, available))
            && (amount > settled.user.collateral ==> r == Err(InsufficientCollateral))
            && (amount <= settled.user.collateral && I.MarginRatio(PaidOut(settled, amount, available)).Ok? && r.Err? ==>
                  r == Err(InsufficientCollateral))
  {
  }

  // ----- Liquidations

  /** Liquidating a user above the partial margin ratio is refused. */
  lemma WellMarginedIsRefused(config: I.Config, a: I.Accounts, blocked: set<u64>, vault: u64, now: i64)
    requires I.Settle(a).Ok? && I.MarginRatio(I.Settle(a).value).Ok?
    requires I.MarginRatio(I.Settle(a).value).value.marginRatio > config.marginRatioPartial
    ensures I.Liquidate(config, a, blocked, vault, now) == Err(SufficientCollateral)
  {
  }
}
