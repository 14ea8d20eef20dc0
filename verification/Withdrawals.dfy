/** Settling twice is settling once, so what a withdrawal checks is what a liquidation would check. */
module Withdrawals {
  import opened Numeric
  import opened State
  import opened Settling
  import I = Instructions

  /** A second settlement at the same rates changes nothing. */
  lemma SettleIsIdempotent(a: I.Accounts)
    requires I.Settle(a).Ok?
    ensures I.Settle(I.Settle(a).value) == I.Settle(a)
  {
    SettlingTracks(a.markets, a.user.positions);
    NothingLeftToSettle(a.markets, I.Settle(a).value.user.positions);
    FloorUnique(0, AMM_TO_QUOTE_PRECISION_RATIO, 0);
  }

  /** A withdrawal never leaves its user open to liquidation: until rates or prices move, liquidating
      him is refused, and he could not have withdrawn more than his settled collateral. */
  lemma WithdrawnIsNotLiquidatable(config: I.Config, a: I.Accounts, amount: u64, available: u64,
                                   blocked: set<u64>, vault: u64, now: i64)
    requires config.marginRatioPartial < config.marginRatioInitial
    requires I.Withdraw(config, a, amount, available).Ok?
    ensures I.Settle(a).Ok?
    ensures var paid := I.Withdraw(config, a, amount, available).value;
            var settled := I.Settle(a).value;
            && I.Liquidate(config, paid, blocked, vault, now) == Err(SufficientCollateral)
            && amount <= settled.user.collateral
            && paid.user.collateral == settled.user.collateral - Min(amount, available)
  {
    var paid := I.Withdraw(config, a, amount, available).value;
    SettlingTracks(a.markets, a.user.positions);
    NothingLeftToSettle(paid.markets, paid.user.positions);
    FloorUnique(0, AMM_TO_QUOTE_PRECISION_RATIO, 0);
    assert I.Settle(paid) == Ok(paid);
  }
}
