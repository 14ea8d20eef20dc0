/** What a liquidation takes, from whom it may take it, and where it goes. */
module Penalties {
  import opened Numeric
  import opened State
  import opened Curve
  import opened Trading
  import opened Shapes
  import opened ClearingHouse
  import opened Runs
  import I = Instructions

  /** A share of an amount, floored. */
  function Share(amount: nat, numerator: nat, denominator: nat): nat
    requires denominator != 0
  {
    amount * numerator / denominator
  }

  // ----- The loops

  lemma LiquidateSlotCloses(a: I.Accounts, j: nat, blocked: set<u64>, now: i64)
    requires j < |a.user.positions| && I.LiquidateSlot(a, j, blocked, now).Ok?
    ensures var p, b := a.user.positions[j], I.LiquidateSlot(a, j, blocked, now).value.0;
            && (p.IsOpen() ==> p.marketIndex !in blocked)
            && |b.user.positions| == |a.user.positions| && !b.user.positions[j].IsOpen()
            && forall k :: 0 <= k < |a.user.positions| && k != j ==> b.user.positions[k] == a.user.positions[k]
  {
    var p := a.user.positions[j];
    if p.IsOpen() {
      CloseShape(a.user.collateral, a.markets[p.marketIndex], p, now);
    }
  }

  /** The first k turns of a full liquidation close the first k slots, none of them in a market whose
      oracle blocks it, and leave the others alone. */
  lemma {:induction false} LiquidateSlotsClose(a: I.Accounts, k: nat, blocked: set<u64>, now: i64)
    requires k <= |a.user.positions| && I.LiquidateSlots(a, k, blocked, now).Ok?
    ensures var b := I.LiquidateSlots(a, k, blocked, now).value.0;
            && |b.user.positions| == |a.user.positions|
            && (forall i :: 0 <= i < k ==> !b.user.positions[i].IsOpen())
            && (forall i :: 0 <= i < k && a.user.positions[i].IsOpen() ==> a.user.positions[i].marketIndex !in blocked)
            && (forall i :: k <= i < |a.user.positions| ==> b.user.positions[i] == a.user.positions[i])
  {
    if k != 0 {
      LiquidateSlotsClose(a, k - 1, blocked, now);
      LiquidateSlotCloses(I.LiquidateSlots(a, k - 1, blocked, now).value.0, k - 1, blocked, now);
    }
  }

  lemma TrimSlotTrims(config: I.Config, a: I.Accounts, j: nat, blocked: set<u64>, now: i64)
    requires j < |a.user.positions| && I.TrimSlot(config, a, j, blocked, now).Ok?
    ensures var p, b := a.user.positions[j], I.TrimSlot(config, a, j, blocked, now).value.0;
            && (p.IsOpen() ==> p.marketIndex !in blocked)
            && |b.user.positions| == |a.user.positions|
            && forall k :: 0 <= k < |a.user.positions| && k != j ==> b.user.positions[k] == a.user.positions[k]
  {
  }

  /** One turn of a partial liquidation reduces an open slot by the share of its value that the
      configuration says. */
  lemma TrimSlotShare(config: I.Config, a: I.Accounts, j: nat, blocked: set<u64>, now: i64)
    requires j < |a.user.positions| && a.user.positions[j].IsOpen() && I.TrimSlot(config, a, j, blocked, now).Ok?
    ensures config.partialCloseDenominator != 0
    ensures var p, (b, closed) := a.user.positions[j], I.TrimSlot(config, a, j, blocked, now).value;
            && p.marketIndex < |a.markets|
            && var amm := a.markets[p.marketIndex].amm;
               && ValueAndPnl(p.baseAssetAmount, p.quoteAssetAmount, amm).Ok? && MarkPrice(amm).Ok?
               && closed == Share(ValueAndPnl(p.baseAssetAmount, p.quoteAssetAmount, amm).value.0,
                                  config.partialCloseNumerator, config.partialCloseDenominator)
               && var mark: Option<u128> := Some(MarkPrice(amm).value);
                  var direction := if p.baseAssetAmount > 0 then Short else Long;
                  I.ReduceSlot(a, j, direction, closed, now, mark).Ok?
                  && I.ReduceSlot(a, j, direction, closed, now, mark).value.0 == b
  {
  }

  lemma {:induction false} TrimSlotsTrim(config: I.Config, a: I.Accounts, k: nat, blocked: set<u64>, now: i64)
    requires k <= |a.user.positions| && I.TrimSlots(config, a, k, blocked, now).Ok?
    ensures var b := I.TrimSlots(config, a, k, blocked, now).value.0;
            && |b.user.positions| == |a.user.positions|
            && (forall i :: 0 <= i < k && a.user.positions[i].IsOpen() ==> a.user.positions[i].marketIndex !in blocked)
            && (forall i :: k <= i < |a.user.positions| ==> b.user.positions[i] == a.user.positions[i])
  {
    if k != 0 {
      TrimSlotsTrim(config, a, k - 1, blocked, now);
      TrimSlotTrims(config, I.TrimSlots(config, a, k - 1, blocked, now).value.0, k - 1, blocked, now);
    }
  }

  // ----- The penalty

  /** A full liquidation: every slot ends closed, the user pays the full penalty on what the closes left
      him, and the liquidator gets his share of what the vault can pay of it. */
  lemma FullPenalty(config: I.Config, a: I.Accounts, blocked: set<u64>, vault: u64, now: i64)
    requires I.Liquidate(config, a, blocked, vault, now).Ok?
    requires I.MarginRatio(I.Settle(a).value).value.marginRatio <= config.marginRatioMaintenance
    ensures config.fullPenaltyDenominator != 0 && config.fullLiquidatorShareDenominator != 0
    ensures var settled := I.Settle(a).value;
            var closing := I.LiquidateSlots(settled, |settled.user.positions|, blocked, now);
            var (b, reward) := I.Liquidate(config, a, blocked, vault, now).value;
            && closing.Ok?
            && var c := closing.value.0.user.collateral;
               var fee := Share(c, config.fullPenaltyNumerator, config.fullPenaltyDenominator);
               && b.user.collateral == c - fee
               && reward == Min(fee, vault) / config.fullLiquidatorShareDenominator
               && b.markets == closing.value.0.markets && b.user.positions == closing.value.0.user.positions
               && NoOpenPosition(b.user)
  {
    var settled := I.Settle(a).value;
    LiquidateSlotsClose(settled, |settled.user.positions|, blocked, now);
  }

  /** At the default percentages a full liquidation leaves the user nothing, and gives the liquidator a
      twentieth of what the vault can pay of it. */
  lemma FullPenaltyTakesAll(a: I.Accounts, blocked: set<u64>, vault: u64, now: i64)
    requires I.Liquidate(I.DEFAULT_CONFIG, a, blocked, vault, now).Ok?
    requires I.MarginRatio(I.Settle(a).value).value.marginRatio <= 500
    ensures var settled := I.Settle(a).value;
            var closing := I.LiquidateSlots(settled, |settled.user.positions|, blocked, now);
            var (b, reward) := I.Liquidate(I.DEFAULT_CONFIG, a, blocked, vault, now).value;
            && b.user.collateral == 0
            && closing.Ok? && reward == Min(closing.value.0.user.collateral, vault) / 20
  {
    FullPenalty(I.DEFAULT_CONFIG, a, blocked, vault, now);
  }

  /** A partial liquidation: the user pays the partial penalty on his total collateral before it, and the
      liquidator gets his share of what the vault can pay of it. */
  lemma PartialPenalty(config: I.Config, a: I.Accounts, blocked: set<u64>, vault: u64, now: i64)
    requires I.Liquidate(config, a, blocked, vault, now).Ok?
    requires config.marginRatioMaintenance < I.MarginRatio(I.Settle(a).value).value.marginRatio
    ensures config.partialPenaltyDenominator != 0 && config.partialLiquidatorShareDenominator != 0
    ensures var settled := I.Settle(a).value;
            var trimming := I.TrimSlots(config, settled, |settled.user.positions|, blocked, now);
            var (b, reward) := I.Liquidate(config, a, blocked, vault, now).value;
            var fee := Share(I.MarginRatio(settled).value.totalCollateral, config.partialPenaltyNumerator,
                             config.partialPenaltyDenominator);
            && trimming.Ok?
            && b.user.collateral == trimming.value.0.user.collateral - fee
            && reward == Min(fee, vault) / config.partialLiquidatorShareDenominator
            && b.markets == trimming.value.0.markets && b.user.positions == trimming.value.0.user.positions
  {
  }

  // ----- Who can be liquidated

  /** Only a user at or below the partial margin ratio can be liquidated, and only if the oracles of all
      his markets allow it. */
  lemma OnlyUndermargined(config: I.Config, a: I.Accounts, blocked: set<u64>, vault: u64, now: i64)
    requires I.Liquidate(config, a, blocked, vault, now).Ok?
    ensures I.Settle(a).Ok? && I.MarginRatio(I.Settle(a).value).Ok?
    ensures I.MarginRatio(I.Settle(a).value).value.marginRatio <= config.marginRatioPartial
    ensures forall j :: 0 <= j < |a.user.positions| && a.user.positions[j].IsOpen() ==>
              a.user.positions[j].marketIndex !in blocked
  {
    var settled := I.Settle(a).value;
    var n := |settled.user.positions|;
    SettlingKeepsExposure(a.markets, a.user.positions);
    if I.MarginRatio(settled).value.marginRatio <= config.marginRatioMaintenance {
      LiquidateSlotsClose(settled, n, blocked, now);
    } else {
      TrimSlotsTrim(config, settled, n, blocked, now);
    }
    forall j | 0 <= j < |a.user.positions| && a.user.positions[j].IsOpen()
      ensures a.user.positions[j].marketIndex !in blocked
    {
      assert settled.user.positions[j].IsOpen();
    }
  }

  // ----- The liquidator

  /** A liquidation of one user credits the liquidator with the reward and touches no third user. */
  lemma LiquidationPays(config: I.Config, h: House, u: nat, liquidator: nat, blocked: set<u64>, vault: u64, now: i64)
    requires u < |h.users| && liquidator < |h.users| && liquidator != u
    requires Step(config, h, Liquidate(u, liquidator, blocked, vault, now)).Ok?
    ensures I.Liquidate(config, Load(h, u), blocked, vault, now).Ok?
    ensures var h' := Step(config, h, Liquidate(u, liquidator, blocked, vault, now)).value;
            var (b, reward) := I.Liquidate(config, Load(h, u), blocked, vault, now).value;
            && |h'.users| == |h.users| && h'.markets == b.markets && h'.users[u] == b.user
            && h'.users[liquidator].collateral == h.users[liquidator].collateral + reward
            && h'.users[liquidator].positions == h.users[liquidator].positions
            && forall v :: 0 <= v < |h.users| && v != u && v != liquidator ==> h'.users[v] == h.users[v]
  {
  }
}
