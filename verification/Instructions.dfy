/** The instructions of the clearing house on the values of the accounts they load: the markets and
    one user. Every failure stands for a rolled-back transaction. */
module Instructions {
  import opened Numeric
  import opened State
  import opened Curve
  import opened Twap
  import opened Trading
  import opened Funding

  const SLOTS := 5

  /** The accounts one instruction loads. */
  datatype Accounts = Accounts(markets: seq<Market>, user: User)

  /** The percentages and ratios an administrator can set. */
  datatype Config = Config(
    marginRatioInitial: u128,
    marginRatioPartial: u128,
    marginRatioMaintenance: u128,
    partialCloseNumerator: u128,
    partialCloseDenominator: u128,
    partialPenaltyNumerator: u128,
    partialPenaltyDenominator: u128,
    fullPenaltyNumerator: u128,
    fullPenaltyDenominator: u128,
    partialLiquidatorShareDenominator: u64,
    fullLiquidatorShareDenominator: u64)

  /** The values initialize gives them. */
  const DEFAULT_CONFIG := Config(2000, 625, 500, 25, 100, 25, 1000, 1, 1, 2, 20)

  /** What the oracle says at one moment of an instruction. */
  datatype OracleReading = OracleReading(price: i128, spreadPct: i128, tooDivergent: bool, valid: bool)

  /** What a trade takes from outside the model: the clock, the oracle and the fees it computed. */
  datatype TradeInputs = TradeInputs(
    now: i64,
    before: OracleReading,
    after: OracleReading,
    fundingBlocked: bool,
    userFee: u128,
    feeToMarket: u128)

  // ----- Slots

  /** The first slot open in a market, from k on. */
  function FindSlot(positions: seq<Position>, index: u64, k: nat): (r: Option<nat>)
    requires k <= |positions|
    ensures r.Some? ==> k <= r.value < |positions| && positions[r.value].IsFor(index)
    ensures r.None? ==> forall j :: k <= j < |positions| ==> !positions[j].IsFor(index)
    decreases |positions| - k
  {
    if k == |positions| then None
    else if positions[k].IsFor(index) then Some(k)
    else FindSlot(positions, index, k + 1)
  }

  /** The first slot without an open position, from k on. */
  function FreeSlot(positions: seq<Position>, k: nat): (r: Option<nat>)
    requires k <= |positions|
    ensures r.Some? ==> k <= r.value < |positions| && !positions[r.value].IsOpen()
    ensures r.None? ==> forall j :: k <= j < |positions| ==> positions[j].IsOpen()
    decreases |positions| - k
  {
    if k == |positions| then None
    else if !positions[k].IsOpen() then Some(k)
    else FreeSlot(positions, k + 1)
  }

  /** The user's slot for a market: his open position there, or a free slot cleared for it. */
  function TakeSlot(u: User, index: u64): (r: Result<(User, nat)>)
    ensures r.Ok? ==> r.value.1 < |r.value.0.positions|
  {
    match FindSlot(u.positions, index, 0)
    case Some(j) => Ok((u, j))
    case None =>
      match FreeSlot(u.positions, 0)
      case Some(j) => Ok((u.(positions := u.positions[j := Position(index, 0, 0, 0, 0)]), j))
      case None => Err(MaxNumberOfPositions)
  }

  /** Writes back the market and the slot an operation changed. */
  function Store(a: Accounts, j: nat, m: Market, p: Position, collateral: u128): Accounts
    requires j < |a.user.positions| && a.user.positions[j].marketIndex < |a.markets|
  {
    Accounts(a.markets[a.user.positions[j].marketIndex := m],
             User(collateral, a.user.positions[j := p]))
  }

  function IncreaseSlot(a: Accounts, j: nat, direction: PositionDirection, quote: u128, now: i64)
    : Result<(Accounts, i128)>
    requires j < |a.user.positions|
  {
    var p := a.user.positions[j];
    var _ :- Need(p.marketIndex < |a.markets|, AccountNotFound);
    var (m', p', acquired) :- Increase(direction, quote, a.markets[p.marketIndex], p, now);
    Ok((Store(a, j, m', p', a.user.collateral), acquired))
  }

  function ReduceSlot(a: Accounts, j: nat, direction: PositionDirection, quote: u128, now: i64, mark: Option<u128>)
    : Result<(Accounts, i128)>
    requires j < |a.user.positions|
  {
    var p := a.user.positions[j];
    var _ :- Need(p.marketIndex < |a.markets|, AccountNotFound);
    var (m', p', collateral, swapped) :-
      Reduce(direction, quote, a.user.collateral, a.markets[p.marketIndex], p, now, mark);
    Ok((Store(a, j, m', p', collateral), swapped))
  }

  function CloseSlot(a: Accounts, j: nat, now: i64): Result<(Accounts, u128)>
    requires j < |a.user.positions|
  {
    var p := a.user.positions[j];
    var _ :- Need(p.marketIndex < |a.markets|, AccountNotFound);
    var (m', p', collateral, value) :- Close(a.user.collateral, a.markets[p.marketIndex], p, now);
    Ok((Store(a, j, m', p', collateral), value))
  }

  // ----- Margin

  /** Base value and unrealised pnl over a user's open positions. */
  function MarginTotals(markets: seq<Market>, positions: seq<Position>): Result<(u128, i128)> {
    if positions == [] then Ok((0, 0)) else
      var n := |positions| - 1;
      var (value, pnl) :- MarginTotals(markets, positions[..n]);
      var p := positions[n];
      if p.baseAssetAmount == 0 then Ok((value, pnl)) else
        var _ :- Need(p.marketIndex < |markets|, AccountNotFound);
        var (slotValue, slotPnl) :- ValueAndPnl(p.baseAssetAmount, p.quoteAssetAmount, markets[p.marketIndex].amm);
        var value' :- FitU128(value + slotValue);
        var pnl' :- FitI128(pnl + slotPnl);
        Ok((value', pnl'))
  }

  datatype Margin = Margin(totalCollateral: u128, unrealizedPnl: i128, baseAssetValue: u128, marginRatio: nat)

  const U128_MAX: u128 := 0xffff_ffff_ffff_ffff_ffff_ffff_ffff_ffff

  function MarginRatio(a: Accounts): Result<Margin> {
    var (value, pnl) :- MarginTotals(a.markets, a.user.positions);
    if value == 0 then Ok(Margin(U128_MAX, pnl, value, U128_MAX)) else
      var total :- UpdatedCollateral(a.user.collateral, pnl);
      var scaled :- FitU128(total * MARGIN_PRECISION);
      var ratio :- DivU(scaled, value);
      Ok(Margin(total, pnl, value, ratio))
  }

  // ----- Settlement, deposits and withdrawals

  function Settle(a: Accounts): Result<Accounts> {
    var user :- SettleUser(a.markets, a.user);
    Ok(a.(user := user))
  }

  function Deposit(a: Accounts, amount: u64): Result<Accounts> {
    var _ :- Need(amount != 0, InsufficientDeposit);
    var collateral :- FitU128(a.user.collateral + amount);
    Settle(a.(user := a.user.(collateral := collateral)))
  }

  /** Pays a settled user; `available` is what the two vaults can pay of the amount. */
  function PayOut(config: Config, a: Accounts, amount: u64, available: u64): Result<Accounts> {
    var _ :- Need(amount <= a.user.collateral, InsufficientCollateral);
    var collateral :- FitU128(a.user.collateral - Min(amount, available));
    var paid := a.(user := a.user.(collateral := collateral));
    var margin :- MarginRatio(paid);
    var _ :- Need(margin.marginRatio >= config.marginRatioInitial, InsufficientCollateral);
    Ok(paid)
  }

  function Withdraw(config: Config, a: Accounts, amount: u64, available: u64): Result<Accounts> {
    var settled :- Settle(a);
    PayOut(config, settled, amount, available)
  }

  // ----- Trades

  /** Whether a reduction is close enough to the position's value to be a close. */
  function ShouldRound(a: Amm, quote: u128, value: u128): Result<bool> {
    var reserve :- AssetToReserve(Abs(quote - value), a.pegMultiplier);
    Ok(reserve < a.minimumTradeSize)
  }

  datatype Traded = Traded(accounts: Accounts, quote: u128, base: u128, riskIncreasing: bool)

  /** Opens what is left of a trade's amount once the position it was against is closed. */
  function Reverse(closed: Accounts, j: nat, direction: PositionDirection, quote: u128, rest: u128, value: u128,
                   size: nat, now: i64): Result<Traded>
    requires j < |closed.user.positions|
  {
    var (after, acquired) :- IncreaseSlot(closed, j, direction, rest, now);
    var base :- FitU128(size + Abs(acquired));
    Ok(Traded(after, quote, base, rest >= value))
  }

  /** Closes a position and opens what is left of the amount on the other side. */
  function Flip(a: Accounts, j: nat, direction: PositionDirection, quote: u128, value: u128, now: i64): Result<Traded>
    requires j < |a.user.positions|
  {
    var rest :- FitU128(quote - value);
    var (closed, _) :- CloseSlot(a, j, now);
    Reverse(closed, j, direction, quote, rest, value, Abs(a.user.positions[j].baseAssetAmount), now)
  }

  /** A trade against the user's position: reduce it, or close it and reverse. */
  function TradeAgainst(a: Accounts, j: nat, direction: PositionDirection, quote: u128, now: i64): Result<Traded>
    requires j < |a.user.positions| && a.user.positions[j].marketIndex < |a.markets|
  {
    var p := a.user.positions[j];
    var amm := a.markets[p.marketIndex].amm;
    var (value, _) :- ValueAndPnl(p.baseAssetAmount, p.quoteAssetAmount, amm);
    var round :- ShouldRound(amm, quote, value);
    var quote := if round then value else quote;
    if value > quote then
      var (after, swapped) :- ReduceSlot(a, j, direction, quote, now, None);
      Ok(Traded(after, quote, Abs(swapped), false))
    else
      Flip(a, j, direction, quote, value, now)
  }

  predicate AddsTo(base: int, direction: PositionDirection) {
    base == 0 || (base > 0 && direction.Long?) || (base < 0 && direction.Short?)
  }

  function Trade(a: Accounts, j: nat, direction: PositionDirection, quote: u128, now: i64): Result<Traded>
    requires j < |a.user.positions| && a.user.positions[j].marketIndex < |a.markets|
  {
    if AddsTo(a.user.positions[j].baseAssetAmount, direction) then
      var (after, acquired) :- IncreaseSlot(a, j, direction, quote, now);
      Ok(Traded(after, quote, Abs(acquired), true))
    else
      TradeAgainst(a, j, direction, quote, now)
  }

  /** Changes the market maker of one market. */
  function WithAmm(a: Accounts, index: nat, amm: Amm): Accounts
    requires index < |a.markets|
  {
    a.(markets := a.markets[index := a.markets[index].(amm := amm)])
  }

  function ReadOracle(a: Accounts, index: nat, reading: OracleReading, now: i64): Result<Accounts>
    requires index < |a.markets|
  {
    if !reading.valid then Ok(a) else
      var amm :- UpdateOracleTwap(a.markets[index].amm, now, reading.price);
      Ok(WithAmm(a, index, amm))
  }

  /** The market's share of the fee goes to both counters; the user pays his fee as far as he can. */
  function ChargeFee(a: Accounts, index: nat, userFee: u128, feeToMarket: u128): Result<Accounts>
    requires index < |a.markets|
  {
    var amm := a.markets[index].amm;
    var totalFee :- FitU128(amm.totalFee + feeToMarket);
    var pool :- FitU128(amm.totalFeeMinusDistributions + feeToMarket);
    var paid := WithAmm(a, index, amm.(totalFee := totalFee, totalFeeMinusDistributions := pool));
    Ok(paid.(user := paid.user.(collateral := Max(paid.user.collateral - userFee, 0))))
  }

  /** The error of a trade that pushes the mark price too far from the oracle. */
  function CheckDivergence(before: OracleReading, after: OracleReading, valid: bool, riskIncreasing: bool): Result<()> {
    var _ :- Need(!(after.tooDivergent && !before.tooDivergent && valid), OracleMarkSpreadLimit);
    Need(!(after.tooDivergent && Abs(after.spreadPct) >= Abs(before.spreadPct) && valid && riskIncreasing),
         OracleMarkSpreadLimit)
  }

  function CheckLimit(amm: Amm, direction: PositionDirection, quote: u128, base: u128, limitPrice: u128): Result<()> {
    if limitPrice == 0 then Ok(()) else
      var reserve :- AssetToReserve(quote, amm.pegMultiplier);
      var entryPrice :- CalculatePrice(reserve, base, amm.pegMultiplier);
      Need(if direction.Long? then entryPrice <= limitPrice else entryPrice >= limitPrice, SlippageOutsideLimit)
  }

  function FundMarket(a: Accounts, index: nat, oraclePrice: i128, blocked: bool, now: i64): Result<Accounts>
    requires index < |a.markets|
  {
    var m :- UpdateFundingRate(a.markets[index], oraclePrice, blocked, now);
    Ok(a.(markets := a.markets[index := m]))
  }

  /** The checks and charges that follow a trade. */
  function FinishOpen(config: Config, t: Traded, index: nat, direction: PositionDirection, limitPrice: u128,
                      inputs: TradeInputs): Result<Accounts>
    requires index < |t.accounts.markets|
  {
    var _ :- MarkPrice(t.accounts.markets[index].amm);
    var margin :- MarginRatio(t.accounts);
    var _ :- Need(margin.marginRatio >= config.marginRatioInitial || !t.riskIncreasing, InsufficientCollateral);
    var charged :- ChargeFee(t.accounts, index, inputs.userFee, inputs.feeToMarket);
    var _ :- CheckDivergence(inputs.before, inputs.after, inputs.before.valid, t.riskIncreasing);
    var _ :- CheckLimit(charged.markets[index].amm, direction, t.quote, t.base, limitPrice);
    FundMarket(charged, index, inputs.after.price, inputs.fundingBlocked, inputs.now)
  }

  /** From settled accounts to traded ones: finds the slot, reads the oracle, trades. */
  function OpenTrade(settled: Accounts, index: u64, direction: PositionDirection, quote: u128, inputs: TradeInputs)
    : Result<Traded>
    requires index < |settled.markets|
  {
    var (user, j) :- TakeSlot(settled.user, index);
    var seated := settled.(user := user);
    var _ :- MarkPrice(seated.markets[index].amm);
    var read :- ReadOracle(seated, index, inputs.before, inputs.now);
    Trade(read, j, direction, quote, inputs.now)
  }

  function OpenPosition(config: Config, a: Accounts, index: u64, direction: PositionDirection, quote: u128,
                        limitPrice: u128, inputs: TradeInputs): Result<Accounts>
  {
    var _ :- Need(index < |a.markets| && a.markets[index].initialized, MarketIndexNotInitialized);
    var settled :- Settle(a);
    var traded :- OpenTrade(settled, index, direction, quote, inputs);
    var _ :- Need(index < |traded.accounts.markets|, AccountNotFound);
    FinishOpen(config, traded, index, direction, limitPrice, inputs)
  }

  /** The charges and checks that follow a close. */
  function FinishClose(a: Accounts, index: nat, inputs: TradeInputs): Result<Accounts>
    requires index < |a.markets|
  {
    var charged :- ChargeFee(a, index, inputs.userFee, inputs.feeToMarket);
    var _ :- MarkPrice(charged.markets[index].amm);
    var read :- ReadOracle(charged, index, inputs.after, inputs.now);
    var _ :- CheckDivergence(inputs.before, inputs.after, inputs.after.valid, false);
    FundMarket(read, index, inputs.after.price, inputs.fundingBlocked, inputs.now)
  }

  /** Closes a settled user's position in a market. */
  function CloseSettled(a: Accounts, index: u64, inputs: TradeInputs): Result<Accounts>
    requires index < |a.markets|
  {
    match FindSlot(a.user.positions, index, 0)
    case None => Err(UserHasNoPositionInMarket)
    case Some(j) =>
      var _ :- MarkPrice(a.markets[index].amm);
      var (closed, _) :- CloseSlot(a, j, inputs.now);
      FinishClose(closed, index, inputs)
  }

  function ClosePosition(a: Accounts, index: u64, inputs: TradeInputs): Result<Accounts> {
    var _ :- Need(index < |a.markets| && a.markets[index].initialized, MarketIndexNotInitialized);
    var settled :- Settle(a);
    CloseSettled(settled, index, inputs)
  }

  // ----- Liquidation

  /** One step of a full liquidation: closes one slot, unless its oracle blocks that. */
  function LiquidateSlot(a: Accounts, j: nat, blocked: set<u64>, now: i64): Result<(Accounts, u128)>
    requires j < |a.user.positions|
  {
    var p := a.user.positions[j];
    if p.baseAssetAmount == 0 then Ok((a, 0)) else
      var _ :- Need(p.marketIndex < |a.markets|, AccountNotFound);
      var _ :- Need(p.marketIndex !in blocked, LiquidationsBlockedByOracle);
      var _ :- MarkPrice(a.markets[p.marketIndex].amm);
      var (after, value) :- CloseSlot(a, j, now);
      var _ :- MarkPrice(after.markets[p.marketIndex].amm);
      Ok((after, value))
  }

  /** One turn of a liquidation's loop over the slots: the accounts after it and the value it closed. */
  type SlotStep = (Accounts, nat) -> Result<(Accounts, u128)>

  /** Adds what one turn closed to what was closed before. */
  function Tally(closed: u128, step: Result<(Accounts, u128)>): Result<(Accounts, u128)> {
    var (after, value) :- step;
    var total :- FitU128(closed + value);
    Ok((after, total))
  }

  /** The first k turns of a loop over the slots, and the value closed. */
  function SlotLoop(step: SlotStep, a: Accounts, k: nat): Result<(Accounts, u128)> {
    if k == 0 then Ok((a, 0)) else
      var (before, closed) :- SlotLoop(step, a, k - 1);
      Tally(closed, step(before, k - 1))
  }

  function FullStep(blocked: set<u64>, now: i64): SlotStep {
    (a: Accounts, j: nat) => if j < |a.user.positions| then LiquidateSlot(a, j, blocked, now) else Err(AccountNotFound)
  }

  /** The first k turns of a full liquidation. */
  function LiquidateSlots(a: Accounts, k: nat, blocked: set<u64>, now: i64): Result<(Accounts, u128)> {
    SlotLoop(FullStep(blocked, now), a, k)
  }

  function Fraction(amount: u128, numerator: u128, denominator: u128): Result<u128> {
    var product :- FitU128(amount * numerator);
    DivU(product, denominator)
  }

  /** The part of a position's value a partial liquidation closes. */
  function PartialValue(config: Config, value: u128): Result<u128> {
    Fraction(value, config.partialCloseNumerator, config.partialCloseDenominator)
  }

  /** One step of a partial liquidation: reduces one slot by a fraction of its value. */
  function TrimSlot(config: Config, a: Accounts, j: nat, blocked: set<u64>, now: i64): Result<(Accounts, u128)>
    requires j < |a.user.positions|
  {
    var p := a.user.positions[j];
    if p.baseAssetAmount == 0 then Ok((a, 0)) else
      var _ :- Need(p.marketIndex < |a.markets|, AccountNotFound);
      var amm := a.markets[p.marketIndex].amm;
      var mark :- MarkPrice(amm);
      var _ :- Need(p.marketIndex !in blocked, LiquidationsBlockedByOracle);
      var (value, _) :- ValueAndPnl(p.baseAssetAmount, p.quoteAssetAmount, amm);
      var toClose :- PartialValue(config, value);
      var (after, _) :- ReduceSlot(a, j, DirectionToClose(p.baseAssetAmount), toClose, now, Some(mark));
      var _ :- MarkPrice(after.markets[p.marketIndex].amm);
      Ok((after, toClose))
  }

  function PartialStep(config: Config, blocked: set<u64>, now: i64): SlotStep {
    (a: Accounts, j: nat) => if j < |a.user.positions| then TrimSlot(config, a, j, blocked, now) else Err(AccountNotFound)
  }

  /** The first k turns of a partial liquidation. */
  function TrimSlots(config: Config, a: Accounts, k: nat, blocked: set<u64>, now: i64): Result<(Accounts, u128)> {
    SlotLoop(PartialStep(config, blocked, now), a, k)
  }

  /** Takes the penalty; its payable part is shared between the liquidator and the insurance fund. */
  function Penalise(a: Accounts, fee: u128, vault: u64, shareDenominator: u64): Result<(Accounts, nat)> {
    var _ :- Need(fee < 0x1_0000_0000_0000_0000, CastingFailure);
    var collateral :- FitU128(a.user.collateral - fee);
    var reward :- DivU(Min(fee, vault), shareDenominator);
    Ok((a.(user := a.user.(collateral := collateral)), reward))
  }

  function LiquidateSettled(config: Config, a: Accounts, margin: Margin, blocked: set<u64>, vault: u64, now: i64)
    : Result<(Accounts, nat)>
  {
    if margin.marginRatio <= config.marginRatioMaintenance then
      var (closed, _) :- LiquidateSlots(a, |a.user.positions|, blocked, now);
      var fee :- Fraction(closed.user.collateral, config.fullPenaltyNumerator, config.fullPenaltyDenominator);
      Penalise(closed, fee, vault, config.fullLiquidatorShareDenominator)
    else
      var (trimmed, _) :- TrimSlots(config, a, |a.user.positions|, blocked, now);
      var fee :- Fraction(margin.totalCollateral, config.partialPenaltyNumerator, config.partialPenaltyDenominator);
      Penalise(trimmed, fee, vault, config.partialLiquidatorShareDenominator)
  }

  /** The accounts after a liquidation and the liquidator's reward. */
  function Liquidate(config: Config, a: Accounts, blocked: set<u64>, vault: u64, now: i64): Result<(Accounts, nat)> {
    var settled :- Settle(a);
    var margin :- MarginRatio(settled);
    var _ :- Need(margin.marginRatio <= config.marginRatioPartial, SufficientCollateral);
    LiquidateSettled(config, settled, margin, blocked, vault, now)
  }

  // ----- One market

  function InitializeMarket(m: Market, base: u128, quote: u128, period: i64, peg: u128, now: i64,
                            oraclePrice: i128, oracleTwap: i128): Result<Market>
  {
    var _ :- Need(!m.initialized, MarketIndexAlreadyInitialized);
    var _ :- Need(base == quote, InvalidInitialPeg);
    var price :- CalculatePrice(quote, base, peg);
    var _ :- FitU192(base * quote);
    Ok(Market(true, 0, 0, 0, 0,
              Amm(base, quote, base, peg, 10_000_000,
                  0, 0, 0, now, period,
                  oraclePrice, oracleTwap, now, price, now,
                  0, 0, 0)))
  }

  /** The cost to the pool of changing the peg: the profit it gives the net position of all users. */
  function AdjustPegCost(m: Market, newPeg: u128): Result<(Market, i128)> {
    var (value, _) :- ValueAndPnl(m.baseAssetAmount, 0, m.amm);
    var repegged := m.(amm := m.amm.(pegMultiplier := newPeg));
    var (_, cost) :- ValueAndPnl(m.baseAssetAmount, value, repegged.amm);
    Ok((repegged, cost))
  }

  /** A repeg may only move the prices toward a valid oracle, and not into its confidence band. */
  function CheckRepeg(m: Market, terminalBefore: u128, oraclePrice: i128, confidence: u128): Result<()> {
    var terminal :- TerminalPrice(m);
    var mark :- MarkPrice(m.amm);
    var price :- CastU128(oraclePrice);
    var top :- FitU128(price + confidence);
    var bottom :- FitU128(price - confidence);
    if price > terminal then
      var _ :- Need(terminal >= terminalBefore, InvalidRepegDirection);
      var _ :- Need(bottom >= terminal, InvalidRepegProfitability);
      Need(mark <= top, InvalidRepegProfitability)
    else if price < terminal then
      var _ :- Need(terminal <= terminalBefore, InvalidRepegDirection);
      var _ :- Need(top <= terminal, InvalidRepegProfitability);
      Need(mark >= bottom, InvalidRepegProfitability)
    else
      Ok(())
  }

  /** The pool pays a positive cost, down to zero but not below its floor, and keeps a negative one. */
  function PayRepeg(m: Market, cost: i128): Result<Market> {
    if cost > 0 then
      var pool: u128 := Max(m.amm.totalFeeMinusDistributions - cost, 0);
      var _ :- Need(pool >= FeeFloor(m.amm), InvalidRepegProfitability);
      Ok(m.(amm := m.amm.(totalFeeMinusDistributions := pool)))
    else
      var pool :- FitU128(m.amm.totalFeeMinusDistributions + Abs(cost));
      Ok(m.(amm := m.amm.(totalFeeMinusDistributions := pool)))
  }

  function Repeg(m: Market, newPeg: u128, oraclePrice: i128, confidence: u128, valid: bool): Result<Market> {
    var _ :- Need(newPeg != m.amm.pegMultiplier, InvalidRepegRedundant);
    var terminalBefore :- TerminalPrice(m);
    var (repegged, cost) :- AdjustPegCost(m, newPeg);
    var _ :- if valid then CheckRepeg(repegged, terminalBefore, oraclePrice, confidence) else Ok(());
    PayRepeg(repegged, cost)
  }

  function WithdrawFees(m: Market, amount: u64): Result<Market> {
    var available :- FitU128(FeeFloor(m.amm) - m.amm.totalFeeWithdrawn);
    var _ :- Need(amount <= available, AdminWithdrawTooLarge);
    var withdrawn :- FitU128(m.amm.totalFeeWithdrawn + amount);
    Ok(m.(amm := m.amm.(totalFeeWithdrawn := withdrawn)))
  }

  function TopUpFromInsurance(m: Market, amount: u64): Result<Market> {
    var pool :- FitU128(m.amm.totalFeeMinusDistributions + amount);
    Ok(m.(amm := m.amm.(totalFeeMinusDistributions := pool)))
  }
}
