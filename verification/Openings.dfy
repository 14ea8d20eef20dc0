/** What open_position does, from the accounts it is given to the accounts it leaves, and what it
    refuses. */
module Openings {
  import opened Numeric
  import opened State
  import opened Curve
  import opened Trading
  import opened Shapes
  import opened TradeEffects
  import opened Outcomes
  import opened Charges
  import I = Instructions

  // ----- Values read reserves only

  lemma ValuesOnSameReserves(p: Position, a: Amm, a': Amm, quote: u128)
    requires SameReserves(a, a')
    ensures ValueAndPnl(p.baseAssetAmount, p.quoteAssetAmount, a') == ValueAndPnl(p.baseAssetAmount, p.quoteAssetAmount, a)
    ensures ValueAndPnl(p.baseAssetAmount, p.quoteAssetAmount, a).Ok? ==> Against(p, a', quote) == Against(p, a, quote)
  {
  }

  predicate AllSameReserves(before: seq<Market>, after: seq<Market>) {
    |after| == |before| && forall i :: 0 <= i < |before| ==> SameReserves(before[i].amm, after[i].amm)
  }

  lemma {:induction false} MarginOnSameReserves(before: seq<Market>, after: seq<Market>, positions: seq<Position>)
    requires AllSameReserves(before, after)
    ensures I.MarginTotals(after, positions) == I.MarginTotals(before, positions)
  {
    if positions != [] {
      var n := |positions| - 1;
      MarginOnSameReserves(before, after, positions[..n]);
      var p := positions[n];
      if p.marketIndex < |before| {
        ValuesOnSameReserves(p, before[p.marketIndex].amm, after[p.marketIndex].amm, 0);
      }
    }
  }

  // ----- The seat

  /** The position a trade in a market is made on: the user's first open one there, or a fresh one. */
  function Held(positions: seq<Position>, index: u64): Position {
    match I.FindSlot(positions, index, 0)
    case Some(j) => positions[j]
    case None => Position(index, 0, 0, 0, 0)
  }

  /** Slot j is the first open one of the market or, if there is none, the first flat one. */
  predicate IsSeat(positions: seq<Position>, index: u64, j: nat) {
    && j < |positions|
    && if exists k :: 0 <= k < |positions| && positions[k].IsFor(index)
       then positions[j].IsFor(index) && forall k :: 0 <= k < j ==> !positions[k].IsFor(index)
       else !positions[j].IsOpen() && forall k :: 0 <= k < j ==> positions[k].IsOpen()
  }

  lemma {:induction false} FindsFirst(positions: seq<Position>, index: u64, k: nat)
    requires k <= |positions|
    ensures var r := I.FindSlot(positions, index, k);
            r.Some? ==> forall i :: k <= i < r.value ==> !positions[i].IsFor(index)
    decreases |positions| - k
  {
    if k < |positions| {
      FindsFirst(positions, index, k + 1);
    }
  }

  lemma {:induction false} FreesFirst(positions: seq<Position>, k: nat)
    requires k <= |positions|
    ensures var r := I.FreeSlot(positions, k); r.Some? ==> forall i :: k <= i < r.value ==> positions[i].IsOpen()
    decreases |positions| - k
  {
    if k < |positions| {
      FreesFirst(positions, k + 1);
    }
  }

  lemma SeatIs(user: User, index: u64)
    requires I.TakeSlot(user, index).Ok?
    ensures var (user', j) := I.TakeSlot(user, index).value;
            && IsSeat(user.positions, index, j)
            && user' == user.(positions := user.positions[j := Held(user.positions, index)])
  {
    var j := I.TakeSlot(user, index).value.1;
    FindsFirst(user.positions, index, 0);
    FreesFirst(user.positions, 0);
    assert user.positions[j := user.positions[j]] == user.positions;
  }

  /** There is no seat only if every slot is open and none is in the market. */
  lemma NoSeatIff(user: User, index: u64)
    ensures var r := I.TakeSlot(user, index);
            && (r.Err? <==> forall k :: 0 <= k < |user.positions| ==>
                              user.positions[k].IsOpen() && !user.positions[k].IsFor(index))
            && (r.Err? ==> r == Err(MaxNumberOfPositions))
  {
  }

  // ----- The trade

  /** A trade on the seat: the user, and the market up to its averages and oracle values. */
  predicate TradedSeat(a: I.Accounts, index: u64, j: nat, direction: PositionDirection, quote: u128, t: I.Traded) {
    && index < |a.markets| == |t.accounts.markets| && IsSeat(a.user.positions, index, j)
    && j < |t.accounts.user.positions|
    && var p, p', amm := Held(a.user.positions, index), t.accounts.user.positions[j], a.markets[index].amm;
       && t.accounts.user.positions == a.user.positions[j := p']
       && Outcome(p, amm, direction, quote, a.user.collateral, p', t.accounts.user.collateral)
       && t.riskIncreasing == RaisesRisk(p, amm, direction, quote)
       && t.quote == UsedQuote(p, amm, direction, quote)
       && t.base == Abs(p'.baseAssetAmount - p.baseAssetAmount)
       && FeesAndRatesKept(amm, t.accounts.markets[index].amm)
       && (forall i :: 0 <= i < |a.markets| && i != index ==> t.accounts.markets[i] == a.markets[i])
  }

  predicate FeesAndRatesKept(a: Amm, a': Amm) {
    && a'.totalFee == a.totalFee && a'.totalFeeMinusDistributions == a.totalFeeMinusDistributions
    && a'.totalFeeWithdrawn == a.totalFeeWithdrawn && a'.pegMultiplier == a.pegMultiplier
    && a'.cumulativeFundingRateLong == a.cumulativeFundingRateLong
    && a'.cumulativeFundingRateShort == a.cumulativeFundingRateShort
    && a'.lastFundingRateTs == a.lastFundingRateTs && a'.fundingPeriod == a.fundingPeriod
  }

  lemma ReadOracleReads(a: I.Accounts, index: nat, reading: I.OracleReading, now: i64)
    requires index < |a.markets| && I.ReadOracle(a, index, reading, now).Ok?
    ensures var b := I.ReadOracle(a, index, reading, now).value;
            && b.user == a.user && b.markets == a.markets[index := b.markets[index]]
            && SameReserves(a.markets[index].amm, b.markets[index].amm)
            && FeesAndRatesKept(a.markets[index].amm, b.markets[index].amm)
  {
    assert a.markets[index := a.markets[index]] == a.markets;
  }

  lemma OutcomeOnSameReserves(p: Position, a: Amm, a': Amm, direction: PositionDirection, quote: u128, c: nat,
                              p': Position, c': nat)
    requires SameReserves(a, a')
    ensures Outcome(p, a', direction, quote, c, p', c') == Outcome(p, a, direction, quote, c, p', c')
    ensures RaisesRisk(p, a', direction, quote) == RaisesRisk(p, a, direction, quote)
    ensures UsedQuote(p, a', direction, quote) == UsedQuote(p, a, direction, quote)
  {
    ValuesOnSameReserves(p, a, a', quote);
  }

  lemma OpenTradeReports(a: I.Accounts, index: u64, direction: PositionDirection, quote: u128, inputs: I.TradeInputs)
    returns (j: nat)
    requires index < |a.markets| && TightCurve(a.markets[index].amm) && 1 <= a.markets[index].amm.minimumTradeSize
    requires I.OpenTrade(a, index, direction, quote, inputs).Ok?
    ensures TradedSeat(a, index, j, direction, quote, I.OpenTrade(a, index, direction, quote, inputs).value)
  {
    var (user, seat) := I.TakeSlot(a.user, index).value;
    j := seat;
    SeatIs(a.user, index);
    var seated := a.(user := user);
    var read := I.ReadOracle(seated, index, inputs.before, inputs.now).value;
    ReadOracleReads(seated, index, inputs.before, inputs.now);
    TradeReports(read, j, direction, quote, inputs.now);
    var t := I.Trade(read, j, direction, quote, inputs.now).value;
    OutcomeOnSameReserves(user.positions[j], a.markets[index].amm, read.markets[index].amm, direction, quote,
                          a.user.collateral, t.accounts.user.positions[j], t.accounts.user.collateral);
  }

  // ----- The checks after the trade

  /** The average price paid for base, floored, respects a limit: at most it for a long, at least it for
      a short. */
  predicate Honours(direction: PositionDirection, limitPrice: nat, quote: nat, base: nat, peg: int)
    requires 0 < peg
  {
    var paid := Reserves(quote, peg) * peg * PRICE_TO_PEG_PRECISION_RATIO;
    if direction.Long? then paid < (limitPrice + 1) * base else limitPrice * base <= paid
  }

  lemma LimitHonoured(amm: Amm, direction: PositionDirection, quote: u128, base: u128, limitPrice: u128)
    requires I.CheckLimit(amm, direction, quote, base, limitPrice).Ok? && limitPrice != 0
    ensures 0 < amm.pegMultiplier && Honours(direction, limitPrice, quote, base, amm.pegMultiplier)
  {
    LimitIff(amm, direction, quote, base, limitPrice);
  }

  /** Where a price can be computed, a trade is within a limit if and only if the limit is honoured. */
  lemma LimitIff(amm: Amm, direction: PositionDirection, quote: u128, base: u128, limitPrice: u128)
    requires limitPrice != 0 && AssetToReserve(quote, amm.pegMultiplier).Ok?
    requires CalculatePrice(AssetToReserve(quote, amm.pegMultiplier).value, base, amm.pegMultiplier).Ok?
    ensures 0 < amm.pegMultiplier
    ensures var r := I.CheckLimit(amm, direction, quote, base, limitPrice);
            && (r.Ok? <==> Honours(direction, limitPrice, quote, base, amm.pegMultiplier))
            && (r.Err? ==> r == Err(SlippageOutsideLimit))
  {
    var paid := Reserves(quote, amm.pegMultiplier) * amm.pegMultiplier * PRICE_TO_PEG_PRECISION_RATIO;
    FloorAtLeast(paid, base, limitPrice + 1);
    FloorAtLeast(paid, base, limitPrice);
  }

  /** The mark price has not left the oracle's reach in the trade, and a trade that raises risk has
      brought it nearer if it was out of reach. */
  predicate Convergent(before: I.OracleReading, after: I.OracleReading, valid: bool, raises: bool) {
    valid && after.tooDivergent ==>
      before.tooDivergent && (raises ==> Abs(after.spreadPct) < Abs(before.spreadPct))
  }

  lemma DivergenceIff(before: I.OracleReading, after: I.OracleReading, valid: bool, raises: bool)
    ensures var r := I.CheckDivergence(before, after, valid, raises);
            && (r.Ok? <==> Convergent(before, after, valid, raises))
            && (r.Err? ==> r == Err(OracleMarkSpreadLimit))
  {
  }

  predicate InitiallyMargined(config: I.Config, a: I.Accounts) {
    I.MarginRatio(a).Ok? && I.MarginRatio(a).value.marginRatio >= config.marginRatioInitial
  }

  lemma FinishOpenChecks(config: I.Config, t: I.Traded, index: nat, direction: PositionDirection, limitPrice: u128,
                         inputs: I.TradeInputs)
    requires index < |t.accounts.markets|
    requires I.FinishOpen(config, t, index, direction, limitPrice, inputs).Ok?
    ensures t.riskIncreasing ==> InitiallyMargined(config, t.accounts)
    ensures Convergent(inputs.before, inputs.after, inputs.before.valid, t.riskIncreasing)
  {
  }

  lemma FinishOpenHonours(config: I.Config, t: I.Traded, index: nat, direction: PositionDirection, limitPrice: u128,
                          inputs: I.TradeInputs)
    requires index < |t.accounts.markets|
    requires I.FinishOpen(config, t, index, direction, limitPrice, inputs).Ok?
    ensures var peg := t.accounts.markets[index].amm.pegMultiplier;
            limitPrice != 0 ==> 0 < peg && Honours(direction, limitPrice, t.quote, t.base, peg)
  {
    if limitPrice != 0 {
      var charged := I.ChargeFee(t.accounts, index, inputs.userFee, inputs.feeToMarket).value;
      LimitHonoured(charged.markets[index].amm, direction, t.quote, t.base, limitPrice);
    }
  }

  // ----- open_position

  /** What a successful open_position did to the user and the markets. `c` is the collateral before the
      fee is taken. */
  predicate OpenedPays(settled: I.Accounts, index: u64, direction: PositionDirection, quote: u128,
                       inputs: I.TradeInputs, b: I.Accounts, j: nat, c: u128) {
    && index < |settled.markets| == |b.markets| && IsSeat(settled.user.positions, index, j) && j < |b.user.positions|
    && var p, p' := Held(settled.user.positions, index), b.user.positions[j];
       var amm, amm' := settled.markets[index].amm, b.markets[index].amm;
       && b.user.positions == settled.user.positions[j := p']
       && Outcome(p, amm, direction, quote, settled.user.collateral, p', c)
       && b.user.collateral == Max(c - inputs.userFee, 0)
       && amm'.totalFee == amm.totalFee + inputs.feeToMarket
       && amm'.totalFeeWithdrawn == amm.totalFeeWithdrawn && amm'.pegMultiplier == amm.pegMultiplier
       && (!Funds(amm, inputs) ==>
             && amm'.totalFeeMinusDistributions == amm.totalFeeMinusDistributions + inputs.feeToMarket
             && amm'.cumulativeFundingRateLong == amm.cumulativeFundingRateLong
             && amm'.cumulativeFundingRateShort == amm.cumulativeFundingRateShort)
       && (forall i :: 0 <= i < |b.markets| && i != index ==> b.markets[i] == settled.markets[i])
  }

  /** What it was checked for: the margin before the fee, and the distance to the oracle. */
  predicate OpenedChecked(config: I.Config, settled: I.Accounts, index: u64, direction: PositionDirection, quote: u128,
                          inputs: I.TradeInputs, b: I.Accounts, c: u128) {
    && index < |settled.markets|
    && var p, amm := Held(settled.user.positions, index), settled.markets[index].amm;
       && (RaisesRisk(p, amm, direction, quote) ==> InitiallyMargined(config, b.(user := b.user.(collateral := c))))
       && Convergent(inputs.before, inputs.after, inputs.before.valid, RaisesRisk(p, amm, direction, quote))
  }

  /** The price of what it moved honours the user's limit. */
  predicate OpenedWithin(settled: I.Accounts, index: u64, direction: PositionDirection, quote: u128, limitPrice: u128,
                         p': Position) {
    && index < |settled.markets|
    && var p, amm := Held(settled.user.positions, index), settled.markets[index].amm;
       limitPrice != 0 ==>
         && 0 < amm.pegMultiplier
         && Honours(direction, limitPrice, UsedQuote(p, amm, direction, quote),
                    Abs(p'.baseAssetAmount - p.baseAssetAmount), amm.pegMultiplier)
  }

  lemma FinishPays(config: I.Config, settled: I.Accounts, index: u64, direction: PositionDirection, quote: u128,
                   limitPrice: u128, inputs: I.TradeInputs, j: nat, t: I.Traded)
    requires TradedSeat(settled, index, j, direction, quote, t)
    requires I.FinishOpen(config, t, index, direction, limitPrice, inputs).Ok?
    ensures OpenedPays(settled, index, direction, quote, inputs,
                       I.FinishOpen(config, t, index, direction, limitPrice, inputs).value, j, t.accounts.user.collateral)
  {
    FinishOpenCharges(config, t, index, direction, limitPrice, inputs);
  }

  lemma FinishIsChecked(config: I.Config, settled: I.Accounts, index: u64, direction: PositionDirection, quote: u128,
                        limitPrice: u128, inputs: I.TradeInputs, j: nat, t: I.Traded)
    requires TradedSeat(settled, index, j, direction, quote, t)
    requires I.FinishOpen(config, t, index, direction, limitPrice, inputs).Ok?
    ensures OpenedChecked(config, settled, index, direction, quote, inputs,
                          I.FinishOpen(config, t, index, direction, limitPrice, inputs).value, t.accounts.user.collateral)
  {
    var b := I.FinishOpen(config, t, index, direction, limitPrice, inputs).value;
    FinishOpenCharges(config, t, index, direction, limitPrice, inputs);
    FinishOpenChecks(config, t, index, direction, limitPrice, inputs);
    MarginWithoutFee(config, t.accounts, b, index, inputs.userFee, inputs.feeToMarket,
                     Funds(t.accounts.markets[index].amm, inputs));
  }

  lemma FinishIsWithin(config: I.Config, settled: I.Accounts, index: u64, direction: PositionDirection, quote: u128,
                       limitPrice: u128, inputs: I.TradeInputs, j: nat, t: I.Traded)
    requires TradedSeat(settled, index, j, direction, quote, t)
    requires I.FinishOpen(config, t, index, direction, limitPrice, inputs).Ok?
    ensures var b := I.FinishOpen(config, t, index, direction, limitPrice, inputs).value;
            j < |b.user.positions| && OpenedWithin(settled, index, direction, quote, limitPrice, b.user.positions[j])
  {
    FinishOpenCharges(config, t, index, direction, limitPrice, inputs);
    FinishOpenHonours(config, t, index, direction, limitPrice, inputs);
  }

  /** With the fee added back, the charges of a trade leave the margin where it was. */
  lemma MarginWithoutFee(config: I.Config, t: I.Accounts, b: I.Accounts, index: nat, userFee: nat, fee: int, funds: bool)
    requires Charged(t, b, index, userFee, fee, funds)
    ensures I.MarginRatio(b.(user := b.user.(collateral := t.user.collateral))) == I.MarginRatio(t)
  {
    assert b.user.(collateral := t.user.collateral) == t.user;
    MarginOnSameReserves(t.markets, b.markets, t.user.positions);
  }

  /** A trade of open_position. It makes the position of its seat what the case it falls into says, pays
      the user what that case realises, takes his fee, and adds the market's fee to the total of fees
      and, unless funding is updated, to the pool; nothing else of the user or of another market
      changes. If it raises his risk, he had the initial margin before the fee, and the mark price has
      not left the oracle. */
  lemma OpenPositionDoes(config: I.Config, a: I.Accounts, index: u64, direction: PositionDirection, quote: u128,
                         limitPrice: u128, inputs: I.TradeInputs)
    returns (j: nat, c: u128)
    requires I.OpenPosition(config, a, index, direction, quote, limitPrice, inputs).Ok?
    requires index < |a.markets| ==> TightCurve(a.markets[index].amm) && 1 <= a.markets[index].amm.minimumTradeSize
    ensures I.Settle(a).Ok?
    ensures OpenedPays(I.Settle(a).value, index, direction, quote, inputs,
                       I.OpenPosition(config, a, index, direction, quote, limitPrice, inputs).value, j, c)
    ensures OpenedChecked(config, I.Settle(a).value, index, direction, quote, inputs,
                          I.OpenPosition(config, a, index, direction, quote, limitPrice, inputs).value, c)
  {
    var settled := I.Settle(a).value;
    j := OpenTradeReports(settled, index, direction, quote, inputs);
    var t := I.OpenTrade(settled, index, direction, quote, inputs).value;
    c := t.accounts.user.collateral;
    FinishPays(config, settled, index, direction, quote, limitPrice, inputs, j, t);
    FinishIsChecked(config, settled, index, direction, quote, limitPrice, inputs, j, t);
  }

  /** A limit price is honoured by the amount the trade used and the base it moved, whatever case of a
      trade it was. */
  lemma OpenPositionHonoursLimit(config: I.Config, a: I.Accounts, index: u64, direction: PositionDirection, quote: u128,
                                 limitPrice: u128, inputs: I.TradeInputs)
    returns (j: nat)
    requires I.OpenPosition(config, a, index, direction, quote, limitPrice, inputs).Ok?
    requires index < |a.markets| ==> TightCurve(a.markets[index].amm) && 1 <= a.markets[index].amm.minimumTradeSize
    ensures I.Settle(a).Ok? && IsSeat(I.Settle(a).value.user.positions, index, j)
    ensures var b := I.OpenPosition(config, a, index, direction, quote, limitPrice, inputs).value;
            && j < |b.user.positions|
            && OpenedWithin(I.Settle(a).value, index, direction, quote, limitPrice, b.user.positions[j])
  {
    var settled := I.Settle(a).value;
    j := OpenTradeReports(settled, index, direction, quote, inputs);
    var t := I.OpenTrade(settled, index, direction, quote, inputs).value;
    FinishIsWithin(config, settled, index, direction, quote, limitPrice, inputs, j, t);
  }
}
