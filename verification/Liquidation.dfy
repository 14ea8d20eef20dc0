/** What liquidations do to a user: a full one realises what the margin check measured, a partial
    one never leaves him worse margined. */
module Liquidation {
  import opened Numeric
  import opened State
  import opened Curve
  import opened Trading
  import opened Shapes
  import opened Rounding
  import opened Equity
  import opened Invariants
  import opened Runs
  import I = Instructions

  // ----- Full liquidation

  /** The profit the margin check sums over the first k slots. */
  function MarginPnl(a: I.Accounts, k: nat): int
    requires k <= |a.user.positions| && I.MarginTotals(a.markets, a.user.positions[..k]).Ok?
  {
    I.MarginTotals(a.markets, a.user.positions[..k]).value.1
  }

  /** Collateral and profit stay nonnegative together, slot by slot: no close on the way clamps. */
  predicate NeverClamps(a: I.Accounts, k: nat)
    requires k <= |a.user.positions|
  {
    forall j :: 0 <= j <= k ==>
      I.MarginTotals(a.markets, a.user.positions[..j]).Ok? && 0 <= a.user.collateral + MarginPnl(a, j)
  }

  /** What the first k steps leave alone: the slots still to come, and their markets. */
  predicate Untouched(a: I.Accounts, a': I.Accounts, k: nat) {
    && |a'.user.positions| == |a.user.positions| && |a'.markets| == |a.markets| && k <= |a.user.positions|
    && (forall j :: k <= j < |a.user.positions| ==>
          && a'.user.positions[j] == a.user.positions[j]
          && (a.user.positions[j].IsOpen() && a.user.positions[j].marketIndex < |a.markets| ==>
                a'.markets[a.user.positions[j].marketIndex] == a.markets[a.user.positions[j].marketIndex]))
    && (forall j :: 0 <= j < k ==> !a'.user.positions[j].IsOpen())
  }

  /** One step: what it closes and what it does to the collateral is what valuing the slot says. */
  lemma LiquidateSlotStep(a: I.Accounts, j: nat, blocked: set<u64>, now: i64)
    requires j < |a.user.positions| && a.user.positions[j].IsOpen()
    requires I.LiquidateSlot(a, j, blocked, now).Ok?
    ensures var p := a.user.positions[j];
            var (a', closed) := I.LiquidateSlot(a, j, blocked, now).value;
            && p.marketIndex < |a.markets|
            && ValueAndPnl(p.baseAssetAmount, p.quoteAssetAmount, a.markets[p.marketIndex].amm).Ok?
            && var (value, pnl) := ValueAndPnl(p.baseAssetAmount, p.quoteAssetAmount, a.markets[p.marketIndex].amm).value;
               && closed == value
               && UpdatedCollateral(a.user.collateral, pnl) == Ok(a'.user.collateral)
               && a'.user.positions == a.user.positions[j := a'.user.positions[j]]
               && !a'.user.positions[j].IsOpen()
               && a'.markets == a.markets[p.marketIndex := a'.markets[p.marketIndex]]
  {
    var p := a.user.positions[j];
    CloseRealisesValuation(a.user.collateral, a.markets[p.marketIndex], p, now);
    CloseShape(a.user.collateral, a.markets[p.marketIndex], p, now);
  }

  lemma LiquidateSlotUntouched(a: I.Accounts, before: I.Accounts, k: nat, blocked: set<u64>, now: i64)
    requires OneSlotPerMarket(a.user.positions) && Untouched(a, before, k) && k < |a.user.positions|
    requires I.LiquidateSlot(before, k, blocked, now).Ok?
    ensures Untouched(a, I.LiquidateSlot(before, k, blocked, now).value.0, k + 1)
  {
    if before.user.positions[k].IsOpen() {
      LiquidateSlotStep(before, k, blocked, now);
    }
  }

  lemma MarginTotalsStep(a: I.Accounts, k: nat)
    requires k < |a.user.positions| && I.MarginTotals(a.markets, a.user.positions[..k + 1]).Ok?
    ensures I.MarginTotals(a.markets, a.user.positions[..k]).Ok?
    ensures var p := a.user.positions[k];
            var (value, pnl) := I.MarginTotals(a.markets, a.user.positions[..k]).value;
            var (value', pnl') := I.MarginTotals(a.markets, a.user.positions[..k + 1]).value;
            if !p.IsOpen() then value' == value && pnl' == pnl else
              && p.marketIndex < |a.markets|
              && ValueAndPnl(p.baseAssetAmount, p.quoteAssetAmount, a.markets[p.marketIndex].amm)
                 == Ok((value' - value, pnl' - pnl))
  {
    assert a.user.positions[..k + 1][..k] == a.user.positions[..k];
  }

  /** One step of the loop against one step of the margin check. */
  lemma LiquidateSlotRealises(a: I.Accounts, before: I.Accounts, k: nat, blocked: set<u64>, now: i64)
    requires OneSlotPerMarket(a.user.positions) && Untouched(a, before, k) && k < |a.user.positions|
    requires I.LiquidateSlot(before, k, blocked, now).Ok?
    requires I.MarginTotals(a.markets, a.user.positions[..k + 1]).Ok?
    ensures I.MarginTotals(a.markets, a.user.positions[..k]).Ok?
    ensures var (after, closed) := I.LiquidateSlot(before, k, blocked, now).value;
            var change := MarginPnl(a, k + 1) - MarginPnl(a, k);
            && closed == I.MarginTotals(a.markets, a.user.positions[..k + 1]).value.0
                         - I.MarginTotals(a.markets, a.user.positions[..k]).value.0
            && after.user.collateral == Max(before.user.collateral + change, 0)
  {
    MarginTotalsStep(a, k);
    if before.user.positions[k].IsOpen() {
      LiquidateSlotStep(before, k, blocked, now);
    }
  }

  lemma {:induction false} LiquidateSlotsUntouched(a: I.Accounts, k: nat, blocked: set<u64>, now: i64)
    requires OneSlotPerMarket(a.user.positions) && k <= |a.user.positions|
    requires I.LiquidateSlots(a, k, blocked, now).Ok?
    ensures Untouched(a, I.LiquidateSlots(a, k, blocked, now).value.0, k)
  {
    if k != 0 {
      LiquidateSlotsUntouched(a, k - 1, blocked, now);
      LiquidateSlotUntouched(a, I.LiquidateSlots(a, k - 1, blocked, now).value.0, k - 1, blocked, now);
    }
  }

  /** What the first k turns of a full liquidation closed and left, against the margin check. */
  predicate Realised(a: I.Accounts, k: nat, a': I.Accounts, closed: int)
    requires k <= |a.user.positions| && I.MarginTotals(a.markets, a.user.positions[..k]).Ok?
  {
    && closed == I.MarginTotals(a.markets, a.user.positions[..k]).value.0
    && a'.user.collateral >= a.user.collateral + MarginPnl(a, k)
    && (NeverClamps(a, k) ==> a'.user.collateral == a.user.collateral + MarginPnl(a, k))
  }

  /** The loop of a full liquidation against the margin check, slot by slot. */
  lemma {:induction false} LiquidateSlotsRealise(a: I.Accounts, k: nat, blocked: set<u64>, now: i64)
    requires OneSlotPerMarket(a.user.positions) && k <= |a.user.positions|
    requires I.LiquidateSlots(a, k, blocked, now).Ok?
    requires I.MarginTotals(a.markets, a.user.positions[..k]).Ok?
    ensures Realised(a, k, I.LiquidateSlots(a, k, blocked, now).value.0, I.LiquidateSlots(a, k, blocked, now).value.1)
  {
    if k == 0 {
      assert a.user.positions[..0] == [];
    } else {
      MarginTotalsStep(a, k - 1);
      LiquidateSlotsRealise(a, k - 1, blocked, now);
      LiquidateSlotsUntouched(a, k - 1, blocked, now);
      var before := I.LiquidateSlots(a, k - 1, blocked, now).value.0;
      LiquidateSlotRealises(a, before, k - 1, blocked, now);
    }
  }

  /** Full liquidation realises what the margin check measured: the value closed is the value
      measured, and the collateral left is at least the total collateral measured, and equal to it
      if no close on the way clamped. Every slot ends closed. */
  lemma FullLiquidationRealisesMargin(a: I.Accounts, blocked: set<u64>, now: i64)
    requires OneSlotPerMarket(a.user.positions)
    requires I.MarginRatio(a).Ok? && I.MarginRatio(a).value.baseAssetValue != 0
    requires I.LiquidateSlots(a, |a.user.positions|, blocked, now).Ok?
    ensures var margin := I.MarginRatio(a).value;
            var (a', closed) := I.LiquidateSlots(a, |a.user.positions|, blocked, now).value;
            && closed == margin.baseAssetValue
            && a'.user.collateral >= margin.totalCollateral
            && (NeverClamps(a, |a.user.positions|) ==> a'.user.collateral == margin.totalCollateral)
            && NoOpenPosition(a'.user)
  {
    var n := |a.user.positions|;
    assert a.user.positions[..n] == a.user.positions;
    LiquidateSlotsUntouched(a, n, blocked, now);
    LiquidateSlotsRealise(a, n, blocked, now);
    if NeverClamps(a, n) {
      assert 0 <= a.user.collateral + MarginPnl(a, n);
    }
  }

  // ----- Partial liquidation

  predicate OnlyOpen(positions: seq<Position>, j: nat) {
    && j < |positions| && positions[j].IsOpen()
    && forall k :: 0 <= k < |positions| && k != j ==> !positions[k].IsOpen()
  }

  lemma {:induction false} ClosedMargin(markets: seq<Market>, positions: seq<Position>)
    requires forall k :: 0 <= k < |positions| ==> !positions[k].IsOpen()
    ensures I.MarginTotals(markets, positions) == Ok((0, 0))
  {
    if positions != [] {
      ClosedMargin(markets, positions[..|positions| - 1]);
    }
  }

  /** With at most one open slot, the margin totals are that slot's value and profit. */
  lemma {:induction false} SingleMargin(markets: seq<Market>, positions: seq<Position>, j: nat)
    requires j < |positions| && I.MarginTotals(markets, positions).Ok?
    requires forall k :: 0 <= k < |positions| && k != j ==> !positions[k].IsOpen()
    ensures var p := positions[j];
            if !p.IsOpen() then I.MarginTotals(markets, positions).value == (0, 0) else
              && p.marketIndex < |markets|
              && ValueAndPnl(p.baseAssetAmount, p.quoteAssetAmount, markets[p.marketIndex].amm)
                 == I.MarginTotals(markets, positions)
  {
    var n := |positions| - 1;
    if j < n {
      SingleMargin(markets, positions[..n], j);
    } else {
      ClosedMargin(markets, positions[..n]);
    }
  }

  /** A partial liquidation of a user with one open slot is one step on that slot. */
  lemma {:induction false} TrimSlotsSingle(config: I.Config, a: I.Accounts, j: nat, k: nat, blocked: set<u64>, now: i64)
    requires OnlyOpen(a.user.positions, j) && k <= |a.user.positions|
    requires I.TrimSlots(config, a, k, blocked, now).Ok?
    ensures k <= j ==> I.TrimSlots(config, a, k, blocked, now).value.0 == a
    ensures j < k ==>
              && I.TrimSlot(config, a, j, blocked, now).Ok?
              && I.TrimSlots(config, a, k, blocked, now).value.0 == I.TrimSlot(config, a, j, blocked, now).value.0
  {
    if k != 0 {
      TrimSlotsSingle(config, a, j, k - 1, blocked, now);
    }
  }

  /** The arithmetic of a partial liquidation at the default percentages: closing a quarter of the
      value outweighs the penalty and both units lost to rounding, from a collateral of five on. */
  lemma QuarterOutweighsPenalty(total: nat, value: nat, total': nat, value': nat)
    requires 5 <= total && 0 < value && total * 10_000 / value <= 625
    requires value' <= value - value * 25 / 100 + 1
    requires total' >= total - total * 25 / 1000 - 1
    ensures total' * value >= total * value'
  {
    var part, fee := value * 25 / 100, total * 25 / 1000;
    RatioBound(total, value);
    QuarterArithmetic(total, value, part, fee);
    LeftProducts(total, value, part, fee);
    MulMono(value', value - part + 1, total);
    MulMono(total - fee - 1, total', value);
  }

  lemma RatioBound(total: nat, value: nat)
    requires 0 < value && total * 10_000 / value <= 625
    ensures 10_000 * total < 626 * value
  {
    FloorBounds(total * 10_000, value);
    MulMono(total * 10_000 / value, 625, value);
  }

  lemma LeftProducts(total: nat, value: nat, part: nat, fee: nat)
    ensures (value - part + 1) * total == total * value - total * part + total
    ensures (total - fee - 1) * value == total * value - fee * value - value
  {
  }

  lemma QuarterArithmetic(total: nat, value: nat, part: nat, fee: nat)
    requires 5 <= total && 10_000 * total < 626 * value
    requires value - 3 <= 4 * part && 40 * fee <= total
    ensures fee * value + value + total <= total * part
  {
    FeeProduct(total, value, fee);
    PartProduct(total, value, part);
    ValueProduct(total, value);
  }

  lemma FeeProduct(total: nat, value: nat, fee: nat)
    requires 40 * fee <= total
    ensures 40 * (fee * value) <= total * value
  {
    MulMono(40 * fee, total, value);
    assert 40 * fee * value == 40 * (fee * value);
  }

  lemma PartProduct(total: nat, value: nat, part: nat)
    requires value - 3 <= 4 * part
    ensures total * value - 3 * total <= 4 * (total * part)
  {
    MulMono(value - 3, 4 * part, total);
    assert (value - 3) * total == total * value - 3 * total;
    assert 4 * part * total == 4 * (total * part);
  }

  lemma ValueProduct(total: nat, value: nat)
    requires 5 <= total && 10_000 * total < 626 * value
    ensures 40 * value + 70 * total <= 9 * (total * value)
  {
    var factor := 9 * total - 40;
    MulMono(10_000 * total, 626 * value, factor);
    MulMono(5, factor, 10_000 * total);
    assert 626 * value * factor == 5634 * (total * value) - 25040 * value;
    assert factor * (10_000 * total) == 10_000 * total * factor;
  }

  /** The market of a user's slot is live and sound, with a peg of at most 10^10. */
  predicate LiquidMarket(a: I.Accounts, j: nat) {
    && j < |a.user.positions| && a.user.positions[j].marketIndex < |a.markets|
    && var m := a.markets[a.user.positions[j].marketIndex];
       m.initialized && CurveSound(m) && m.amm.pegMultiplier <= QUOTE_UNIT
  }

  /** The quote amount a step of a partial liquidation trades. */
  function Trimmed(config: I.Config, a: I.Accounts, j: nat): Result<u128>
    requires j < |a.user.positions| && a.user.positions[j].marketIndex < |a.markets|
  {
    var p := a.user.positions[j];
    var (value, _) :- ValueAndPnl(p.baseAssetAmount, p.quoteAssetAmount, a.markets[p.marketIndex].amm);
    I.PartialValue(config, value)
  }

  lemma TrimIsReduce(config: I.Config, a: I.Accounts, j: nat, blocked: set<u64>, now: i64)
    requires LiquidMarket(a, j) && a.user.positions[j].IsOpen() && ProperConfig(config)
    requires I.TrimSlot(config, a, j, blocked, now).Ok?
    ensures Trimmed(config, a, j).Ok? && MarkPrice(a.markets[a.user.positions[j].marketIndex].amm).Ok?
    ensures var p := a.user.positions[j];
            var m := a.markets[p.marketIndex];
            var r := Reduce(DirectionToClose(p.baseAssetAmount), Trimmed(config, a, j).value, a.user.collateral, m, p, now,
                            Some(MarkPrice(m.amm).value));
            && r.Ok?
            && I.TrimSlot(config, a, j, blocked, now).value.0 == I.Store(a, j, r.value.0, r.value.1, r.value.2)
            && 0 < m.amm.pegMultiplier
            && Guarded(Trimmed(config, a, j).value, m, p)
  {
    var p := a.user.positions[j];
    var m := a.markets[p.marketIndex];
    var toClose, mark := Trimmed(config, a, j).value, Some(MarkPrice(m.amm).value);
    var direction := DirectionToClose(p.baseAssetAmount);
    SwapQuoteShape(m.amm, toClose, QuoteSwapDirection(direction), now, mark);
    FractionGuards(config, ValueAndPnl(p.baseAssetAmount, p.quoteAssetAmount, m.amm).value.0,
                   m.amm.pegMultiplier, m.amm.minimumTradeSize);
  }

  /** A guarded reduction that leaves a position open leaves one that can be valued. */
  lemma ReduceLeavesValue(quote: u128, collateral: u128, m: Market, p: Position, now: i64, mark: Option<u128>)
    requires Guarded(quote, m, p) && 0 < m.amm.pegMultiplier
    requires Reduce(DirectionToClose(p.baseAssetAmount), quote, collateral, m, p, now, mark).Ok?
    ensures var (m', p', _, _) := Reduce(DirectionToClose(p.baseAssetAmount), quote, collateral, m, p, now, mark).value;
            && 0 < m.amm.baseAssetReserve + p.baseAssetAmount
            && (p'.IsOpen() ==> ValueAndPnl(p'.baseAssetAmount, p'.quoteAssetAmount, m'.amm).Ok?)
  {
    var direction := DirectionToClose(p.baseAssetAmount);
    var (m', p', _, _) := Reduce(direction, quote, collateral, m, p, now, mark).value;
    NoSignFlip(quote, collateral, m, p, now, mark);
    ValueShape(p.baseAssetAmount, p.quoteAssetAmount, m.amm);
    ReduceShape(direction, quote, collateral, m, p, now, mark);
    SwapQuoteShape(m.amm, quote, QuoteSwapDirection(direction), now, mark);
    if p'.IsOpen() {
      RemainingIsValued(m.amm, p, m'.amm, p', quote);
    }
  }

  /** Fewer reserves on the same terminal curve, and no more entry notional, stay in range. */
  lemma RemainingIsValued(a: Amm, p: Position, a': Amm, p': Position, quote: nat)
    requires p.IsOpen() && p'.IsOpen() && (p.baseAssetAmount > 0 <==> p'.baseAssetAmount > 0)
    requires ValueAndPnl(p.baseAssetAmount, p.quoteAssetAmount, a).Ok?
    requires 0 < a.baseAssetReserve + p.baseAssetAmount == a'.baseAssetReserve + p'.baseAssetAmount
    requires 0 < a.pegMultiplier == a'.pegMultiplier && a'.sqrtK == a.sqrtK
    requires quote < RawValue(a, p.baseAssetAmount) / QUOTE_UNIT && p'.quoteAssetAmount <= p.quoteAssetAmount
    requires var r := Reserves(quote, a.pegMultiplier);
             a'.quoteAssetReserve == a.quoteAssetReserve + (if p.baseAssetAmount > 0 then 0 - r else r)
    ensures ValueAndPnl(p'.baseAssetAmount, p'.quoteAssetAmount, a').Ok?
  {
    var z, peg := TerminalQuote(a, p.baseAssetAmount), a.pegMultiplier;
    var change := if p.baseAssetAmount > 0 then a.quoteAssetReserve - z else z - a.quoteAssetReserve;
    var change' := if p'.baseAssetAmount > 0 then a'.quoteAssetReserve - z else z - a'.quoteAssetReserve;
    ValueShape(p.baseAssetAmount, p.quoteAssetAmount, a);
    assert 0 <= change by { SwapQuotient(a, p); }
    FewerReserves(quote, change, peg);
    FloorAtLeast(quote * QUOTE_UNIT, peg, 0);
    MulMono(change', change, peg);
    MulMono(0, change', peg);
    FloorMono(change' * peg, change * peg, QUOTE_UNIT);
    assert TerminalQuote(a', p'.baseAssetAmount) == z;
  }

  /** A valuation that succeeded subtracted the smaller quote reserve from the larger. */
  lemma SwapQuotient(a: Amm, p: Position)
    requires p.IsOpen() && ValueAndPnl(p.baseAssetAmount, p.quoteAssetAmount, a).Ok?
    ensures 0 < a.baseAssetReserve + p.baseAssetAmount
    ensures if p.baseAssetAmount > 0 then TerminalQuote(a, p.baseAssetAmount) <= a.quoteAssetReserve
            else a.quoteAssetReserve <= TerminalQuote(a, p.baseAssetAmount)
  {
  }

  /** What a partial liquidation's reduction leaves: a position that can be valued, whose value fell by
      what was closed, to within a unit, and collateral plus unrealised profit that fell by at most one. */
  lemma ReduceLeaves(quote: u128, collateral: u128, m: Market, p: Position, now: i64, mark: Option<u128>)
    requires Guarded(quote, m, p) && 0 < m.amm.pegMultiplier <= QUOTE_UNIT
    requires Reduce(DirectionToClose(p.baseAssetAmount), quote, collateral, m, p, now, mark).Ok?
    ensures var (value, pnl) := ValueAndPnl(p.baseAssetAmount, p.quoteAssetAmount, m.amm).value;
            var (m', p', collateral', _) := Reduce(DirectionToClose(p.baseAssetAmount), quote, collateral, m, p, now, mark).value;
            && ValueAndPnl(p'.baseAssetAmount, p'.quoteAssetAmount, m'.amm).Ok?
            && var (value', pnl') := ValueAndPnl(p'.baseAssetAmount, p'.quoteAssetAmount, m'.amm).value;
               && value' <= value - quote + 1
               && collateral' + pnl' >= collateral + pnl - 1
  {
    var direction := DirectionToClose(p.baseAssetAmount);
    var (m', p', _, _) := Reduce(direction, quote, collateral, m, p, now, mark).value;
    ReduceLeavesValue(quote, collateral, m, p, now, mark);
    NoSignFlip(quote, collateral, m, p, now, mark);
    ValueShape(p.baseAssetAmount, p.quoteAssetAmount, m.amm);
    ReduceShape(direction, quote, collateral, m, p, now, mark);
    if p'.IsOpen() {
      ValueShape(p'.baseAssetAmount, p'.quoteAssetAmount, m'.amm);
      ReduceMovesValue(quote, collateral, m, p, now, mark);
      ReduceEquity(quote, collateral, m, p, now, mark);
      SlackOfUsualPeg(m.amm.pegMultiplier);
    } else {
      ReduceToFlatEquity(quote, collateral, m, p, now, mark);
    }
  }

  /** The slots and markets after a partial liquidation are those of its one step; the collateral is
      the step's, less the penalty. */
  lemma PartialIsTrim(a: I.Accounts, margin: I.Margin, j: nat, blocked: set<u64>, vault: u64, now: i64)
    requires OnlyOpen(a.user.positions, j)
    requires I.DEFAULT_CONFIG.marginRatioMaintenance < margin.marginRatio
    requires I.LiquidateSettled(I.DEFAULT_CONFIG, a, margin, blocked, vault, now).Ok?
    ensures I.TrimSlot(I.DEFAULT_CONFIG, a, j, blocked, now).Ok?
    ensures var trimmed := I.TrimSlot(I.DEFAULT_CONFIG, a, j, blocked, now).value.0;
            var a' := I.LiquidateSettled(I.DEFAULT_CONFIG, a, margin, blocked, vault, now).value.0;
            && a'.markets == trimmed.markets && a'.user.positions == trimmed.user.positions
            && a'.user.collateral == trimmed.user.collateral - margin.totalCollateral * 25 / 1000
  {
    TrimSlotsSingle(I.DEFAULT_CONFIG, a, j, |a.user.positions|, blocked, now);
  }

  /** The margin check after one step of a partial liquidation and a penalty, against the one before. */
  lemma TrimmedMargin(a: I.Accounts, a': I.Accounts, j: nat, blocked: set<u64>, now: i64, fee: nat)
    requires OnlyOpen(a.user.positions, j) && LiquidMarket(a, j)
    requires I.MarginRatio(a).Ok? && 0 < I.MarginRatio(a).value.totalCollateral && I.MarginRatio(a').Ok?
    requires I.MarginRatio(a).value.baseAssetValue != 0 && I.MarginRatio(a').value.baseAssetValue != 0
    requires I.TrimSlot(I.DEFAULT_CONFIG, a, j, blocked, now).Ok?
    requires var trimmed := I.TrimSlot(I.DEFAULT_CONFIG, a, j, blocked, now).value.0;
             && a'.markets == trimmed.markets && a'.user.positions == trimmed.user.positions
             && a'.user.collateral == trimmed.user.collateral - fee
    ensures var before, after := I.MarginRatio(a).value, I.MarginRatio(a').value;
            && after.baseAssetValue <= before.baseAssetValue - before.baseAssetValue * 25 / 100 + 1
            && after.totalCollateral >= before.totalCollateral - fee - 1
  {
    TrimIsReduce(I.DEFAULT_CONFIG, a, j, blocked, now);
    var p, m := a.user.positions[j], a.markets[a.user.positions[j].marketIndex];
    SingleMargin(a.markets, a.user.positions, j);
    SingleMargin(a'.markets, a'.user.positions, j);
    ReduceLeaves(Trimmed(I.DEFAULT_CONFIG, a, j).value, a.user.collateral, m, p, now, Some(MarkPrice(m.amm).value));
  }

  /** Partial liquidation helps: at the default percentages, for a user with one open position and a
      total collateral of at least five, it never lowers the ratio of total collateral to base
      value, the penalty included. */
  lemma PartialLiquidationHelps(a: I.Accounts, j: nat, blocked: set<u64>, vault: u64, now: i64)
    requires OnlyOpen(a.user.positions, j) && LiquidMarket(a, j)
    requires I.MarginRatio(a).Ok? && 5 <= I.MarginRatio(a).value.totalCollateral
    requires var ratio := I.MarginRatio(a).value.marginRatio;
             I.DEFAULT_CONFIG.marginRatioMaintenance < ratio <= I.DEFAULT_CONFIG.marginRatioPartial
    requires I.LiquidateSettled(I.DEFAULT_CONFIG, a, I.MarginRatio(a).value, blocked, vault, now).Ok?
    requires I.MarginRatio(I.LiquidateSettled(I.DEFAULT_CONFIG, a, I.MarginRatio(a).value, blocked, vault, now).value.0).Ok?
    ensures var before := I.MarginRatio(a).value;
            var after := I.MarginRatio(I.LiquidateSettled(I.DEFAULT_CONFIG, a, before, blocked, vault, now).value.0).value;
            after.totalCollateral * before.baseAssetValue >= before.totalCollateral * after.baseAssetValue
  {
    var before := I.MarginRatio(a).value;
    var a' := I.LiquidateSettled(I.DEFAULT_CONFIG, a, before, blocked, vault, now).value.0;
    var after := I.MarginRatio(a').value;
    PartialIsTrim(a, before, j, blocked, vault, now);
    if after.baseAssetValue != 0 {
      TrimmedMargin(a, a', j, blocked, now, before.totalCollateral * 25 / 1000);
      QuarterOutweighsPenalty(before.totalCollateral, before.baseAssetValue, after.totalCollateral, after.baseAssetValue);
    }
  }
}
