/** The open interest of a market counts its open positions, and the opening trades that acquired
    nothing, exactly. */
module OpenInterest {
  import opened Numeric
  import opened State
  import opened Curve
  import opened Twap
  import opened Trading
  import opened Shapes
  import opened Funding
  import opened FundingRates
  import opened Aggregates
  import opened ClearingHouse
  import opened Invariants
  import opened Runs
  import opened TradeEffects
  import I = Instructions

  /** By how much a market's open interest exceeds the number of open positions in it. */
  function Gap(h: House, i: nat): int
    requires i < |h.markets|
  {
    h.markets[i].openInterest - UsersTotal(h.users, i, OpenCount)
  }

  predicate SameGaps(h: House, h': House) {
    && |h'.markets| == |h.markets|
    && forall i :: 0 <= i < |h.markets| ==> Gap(h', i) == Gap(h, i)
  }

  /** Two states of the accounts one instruction works on leave the same gaps. */
  predicate GapsKept(h: House, u: nat, a: I.Accounts, b: I.Accounts) {
    u < |h.users| && SameGaps(Save(h, u, a), Save(h, u, b))
  }

  /** The gap of one market grows by one, if `grows`; the others stay. */
  predicate GapMoves(h: House, h': House, index: int, grows: bool) {
    && |h'.markets| == |h.markets|
    && forall i :: 0 <= i < |h.markets| ==> Gap(h', i) == Gap(h, i) + (if i == index && grows then 1 else 0)
  }

  predicate GapMovesWith(h: House, u: nat, a: I.Accounts, b: I.Accounts, index: int, grows: bool) {
    u < |h.users| && GapMoves(Save(h, u, a), Save(h, u, b), index, grows)
  }

  // ----- Opening trades that acquire nothing

  /** A swap of a nonzero quote amount that yields no base. */
  predicate AcquiresNothing(a: Amm, quote: u128, direction: PositionDirection) {
    var r := SwapQuote(a, quote, QuoteSwapDirection(direction));
    quote != 0 && r.Ok? && r.value.1 == 0
  }

  /** That is, the floor leaves the base reserve where it is. */
  lemma AcquiresNothingIff(a: Amm, quote: u128, direction: PositionDirection)
    requires SwapQuote(a, quote, QuoteSwapDirection(direction)).Ok?
    ensures 0 < a.pegMultiplier
    ensures var r := Reserves(quote, a.pegMultiplier);
            var quoteReserve := a.quoteAssetReserve + (if direction.Long? then r else 0 - r);
            && 0 < quoteReserve
            && (AcquiresNothing(a, quote, direction)
                <==> quote != 0 && a.sqrtK * a.sqrtK / quoteReserve == a.baseAssetReserve)
  {
    SwapQuoteMoves(a, quote, QuoteSwapDirection(direction));
  }

  /** A swap reads neither the averages nor the oracle values nor the fees. */
  lemma SameCurveAcquires(a: Amm, a': Amm, quote: u128, direction: PositionDirection)
    requires && a'.baseAssetReserve == a.baseAssetReserve && a'.quoteAssetReserve == a.quoteAssetReserve
             && a'.sqrtK == a.sqrtK && a'.pegMultiplier == a.pegMultiplier && a'.minimumTradeSize == a.minimumTradeSize
    ensures AcquiresNothing(a', quote, direction) == AcquiresNothing(a, quote, direction)
  {
  }

  /** Whether a trade opens a position and acquires no base for it, from the accounts before the trade:
      from a flat slot, or with what is left of the amount once the position is closed. */
  predicate OpensNothing(a: I.Accounts, j: nat, direction: PositionDirection, quote: u128, now: i64)
    requires j < |a.user.positions| && a.user.positions[j].marketIndex < |a.markets|
  {
    var p := a.user.positions[j];
    var amm := a.markets[p.marketIndex].amm;
    if !p.IsOpen() then
      AcquiresNothing(amm, quote, direction)
    else
      && !I.AddsTo(p.baseAssetAmount, direction)
      && ValueAndPnl(p.baseAssetAmount, p.quoteAssetAmount, amm).Ok?
      && var (value, used) := Against(p, amm, quote);
         value <= used && OpensNothingReversed(a, j, direction, used - value, now)
  }

  predicate OpensNothingReversed(a: I.Accounts, j: nat, direction: PositionDirection, rest: u128, now: i64)
    requires j < |a.user.positions| && a.user.positions[j].marketIndex < |a.markets|
  {
    var closed := I.CloseSlot(a, j, now);
    closed.Ok? && AcquiresNothing(closed.value.0.markets[a.user.positions[j].marketIndex].amm, rest, direction)
  }

  // ----- Operations on a slot

  lemma StoreMovesGap(h: House, u: nat, a: I.Accounts, j: nat, m': Market, p': Position, collateral: u128)
    requires u < |h.users| && j < |a.user.positions| && a.user.positions[j].marketIndex < |a.markets|
    requires p'.marketIndex == a.user.positions[j].marketIndex
    requires 0 <= InterestDrift(a.markets[p'.marketIndex], a.user.positions[j], m', p') <= 1
    ensures var p := a.user.positions[j];
            GapMovesWith(h, u, a, I.Store(a, j, m', p', collateral), p.marketIndex,
                         InterestDrift(a.markets[p.marketIndex], p, m', p') == 1)
  {
    var h1, b := Save(h, u, a), I.Store(a, j, m', p', collateral);
    var h2 := Save(h, u, b);
    assert h2.users == h1.users[u := b.user];
    forall i | 0 <= i < |h1.markets|
      ensures UsersTotal(h2.users, i, OpenCount) == UsersTotal(h1.users, i, OpenCount)
                - Weight(a.user.positions[j], i, OpenCount) + Weight(p', i, OpenCount)
    {
      StoreMeasure(h1.users, u, j, p', collateral, i, OpenCount);
    }
  }

  /** One slot changed, and the open interest drifted from the open positions by one or not. */
  predicate Drifts(a: I.Accounts, j: nat, b: I.Accounts, drifts: bool) {
    && OneSlotChanged(a, j, b)
    && var i := a.user.positions[j].marketIndex;
       InterestDrift(a.markets[i], a.user.positions[j], b.markets[i], b.user.positions[j]) == if drifts then 1 else 0
  }

  lemma DriftMovesGap(h: House, u: nat, a: I.Accounts, j: nat, b: I.Accounts, drifts: bool)
    requires u < |h.users| && Drifts(a, j, b, drifts)
    ensures GapMovesWith(h, u, a, b, a.user.positions[j].marketIndex, drifts)
  {
    StoreMovesGap(h, u, a, j, b.markets[a.user.positions[j].marketIndex], b.user.positions[j], b.user.collateral);
  }

  lemma IncreaseSlotDrifts(a: I.Accounts, j: nat, direction: PositionDirection, quote: u128, now: i64)
    requires OnCurve(a, j) && I.AddsTo(a.user.positions[j].baseAssetAmount, direction)
    requires I.IncreaseSlot(a, j, direction, quote, now).Ok?
    ensures var p := a.user.positions[j];
            Drifts(a, j, I.IncreaseSlot(a, j, direction, quote, now).value.0,
                   !p.IsOpen() && AcquiresNothing(a.markets[p.marketIndex].amm, quote, direction))
  {
    var p := a.user.positions[j];
    IncreaseDrift(direction, quote, a.markets[p.marketIndex], p, now);
  }

  lemma IncreaseDrift(direction: PositionDirection, quote: u128, m: Market, p: Position, now: i64)
    requires TightCurve(m.amm) && 1 <= m.amm.minimumTradeSize && I.AddsTo(p.baseAssetAmount, direction)
    requires Increase(direction, quote, m, p, now).Ok?
    ensures var (m', p', _) := Increase(direction, quote, m, p, now).value;
            && p'.marketIndex == p.marketIndex
            && InterestDrift(m, p, m', p') == (if !p.IsOpen() && AcquiresNothing(m.amm, quote, direction) then 1 else 0)
  {
    IncreaseSound(direction, quote, m, p, now);
    if quote != 0 {
      IncreaseShape(direction, quote, m, p, now);
      AcquiredIsSwapped(m.amm, quote, direction, now);
    }
  }

  lemma AcquiredIsSwapped(a: Amm, quote: u128, direction: PositionDirection, now: i64)
    requires quote != 0 && SwapQuoteAsset(a, quote, QuoteSwapDirection(direction), now, None).Ok?
    ensures AcquiresNothing(a, quote, direction)
            <==> SwapQuoteAsset(a, quote, QuoteSwapDirection(direction), now, None).value.1 == 0
  {
    MarkTwapShape(a, now, None);
    SameCurveAcquires(a, UpdateMarkTwap(a, now, None).value, quote, direction);
  }

  lemma ReduceKeepsGaps(h: House, u: nat, a: I.Accounts, j: nat, quote: u128, now: i64, mark: Option<u128>)
    requires SoundWith(h, u, a) && j < |a.user.positions|
    requires var p := a.user.positions[j];
             && p.marketIndex < |a.markets| && Guarded(quote, a.markets[p.marketIndex], p)
             && I.ReduceSlot(a, j, DirectionToClose(p.baseAssetAmount), quote, now, mark).Ok?
    ensures var direction := DirectionToClose(a.user.positions[j].baseAssetAmount);
            GapsKept(h, u, a, I.ReduceSlot(a, j, direction, quote, now, mark).value.0)
  {
    SlotMarketIsSound(h, u, a, j);
    var p, collateral := a.user.positions[j], a.user.collateral;
    var m, direction := a.markets[p.marketIndex], DirectionToClose(p.baseAssetAmount);
    ReduceSound(quote, collateral, m, p, now, mark);
    var (m', p', collateral', _) := Reduce(direction, quote, collateral, m, p, now, mark).value;
    StoreMovesGap(h, u, a, j, m', p', collateral');
  }

  lemma CloseKeepsGaps(h: House, u: nat, a: I.Accounts, j: nat, now: i64)
    requires SoundWith(h, u, a) && j < |a.user.positions| && a.user.positions[j].IsOpen()
    requires I.CloseSlot(a, j, now).Ok?
    ensures GapsKept(h, u, a, I.CloseSlot(a, j, now).value.0)
  {
    var p, collateral := a.user.positions[j], a.user.collateral;
    CloseSound(collateral, a.markets[p.marketIndex], p, now);
    var (m', p', collateral', _) := Close(collateral, a.markets[p.marketIndex], p, now).value;
    StoreMovesGap(h, u, a, j, m', p', collateral');
  }

  // ----- Trades

  lemma CloseDrifts(a: I.Accounts, j: nat, now: i64)
    requires OnCurve(a, j) && a.user.positions[j].IsOpen() && I.CloseSlot(a, j, now).Ok?
    ensures Drifts(a, j, I.CloseSlot(a, j, now).value.0, false) && OnCurve(I.CloseSlot(a, j, now).value.0, j)
    ensures !I.CloseSlot(a, j, now).value.0.user.positions[j].IsOpen()
  {
    var p := a.user.positions[j];
    CloseSound(a.user.collateral, a.markets[p.marketIndex], p, now);
  }

  /** Of two changes of the same slot the first does not drift: the second says whether both do. */
  lemma DriftsCompose(a: I.Accounts, b: I.Accounts, c: I.Accounts, j: nat, drifts: bool)
    requires Drifts(a, j, b, false) && Drifts(b, j, c, drifts)
    ensures Drifts(a, j, c, drifts)
  {
  }

  lemma FlipDrifts(a: I.Accounts, j: nat, direction: PositionDirection, quote: u128, value: u128, now: i64)
    requires OnCurve(a, j) && a.user.positions[j].IsOpen() && value <= quote
    requires I.Flip(a, j, direction, quote, value, now).Ok?
    ensures Drifts(a, j, I.Flip(a, j, direction, quote, value, now).value.accounts,
                   OpensNothingReversed(a, j, direction, quote - value, now))
  {
    var rest, size := FitU128(quote - value).value, Abs(a.user.positions[j].baseAssetAmount);
    var closed := I.CloseSlot(a, j, now).value.0;
    assert I.Flip(a, j, direction, quote, value, now) == I.Reverse(closed, j, direction, quote, rest, value, size, now);
    assert Drifts(a, j, closed, false) && OnCurve(closed, j) && !closed.user.positions[j].IsOpen() by {
      CloseDrifts(a, j, now);
    }
    assert Drifts(a, j, I.Reverse(closed, j, direction, quote, rest, value, size, now).value.accounts,
                  AcquiresNothing(closed.markets[closed.user.positions[j].marketIndex].amm, rest, direction)) by {
      ReverseDrifts(a, closed, j, direction, quote, rest, value, size, now);
    }
  }

  /** After a change of the slot that does not drift and leaves it flat, a reverse trade drifts if it
      acquires nothing. */
  lemma ReverseDrifts(a: I.Accounts, closed: I.Accounts, j: nat, direction: PositionDirection, quote: u128, rest: u128,
                      value: u128, size: nat, now: i64)
    requires Drifts(a, j, closed, false) && OnCurve(closed, j) && !closed.user.positions[j].IsOpen()
    requires I.Reverse(closed, j, direction, quote, rest, value, size, now).Ok?
    ensures Drifts(a, j, I.Reverse(closed, j, direction, quote, rest, value, size, now).value.accounts,
                   AcquiresNothing(closed.markets[closed.user.positions[j].marketIndex].amm, rest, direction))
  {
    IncreaseSlotDrifts(closed, j, direction, rest, now);
    DriftsCompose(a, closed, I.IncreaseSlot(closed, j, direction, rest, now).value.0, j,
                  AcquiresNothing(closed.markets[closed.user.positions[j].marketIndex].amm, rest, direction));
  }

  lemma TradeAgainstDrifts(a: I.Accounts, j: nat, direction: PositionDirection, quote: u128, now: i64)
    requires OnCurve(a, j) && !I.AddsTo(a.user.positions[j].baseAssetAmount, direction)
    requires I.TradeAgainst(a, j, direction, quote, now).Ok?
    ensures Drifts(a, j, I.TradeAgainst(a, j, direction, quote, now).value.accounts,
                   OpensNothing(a, j, direction, quote, now))
  {
    var p := a.user.positions[j];
    TradeAgainstCases(a, j, direction, quote, now);
    var (value, used) := Against(p, a.markets[p.marketIndex].amm, quote);
    if value > used {
      ReduceDrifts(a, j, direction, used, now);
    } else {
      FlipDrifts(a, j, direction, used, value, now);
    }
  }

  lemma ReduceDrifts(a: I.Accounts, j: nat, direction: PositionDirection, quote: u128, now: i64)
    requires OnCurve(a, j) && I.ReduceSlot(a, j, direction, quote, now, None).Ok?
    requires var p := a.user.positions[j];
             Guarded(quote, a.markets[p.marketIndex], p) && !I.AddsTo(p.baseAssetAmount, direction)
    ensures Drifts(a, j, I.ReduceSlot(a, j, direction, quote, now, None).value.0, false)
  {
    var p := a.user.positions[j];
    ReduceSound(quote, a.user.collateral, a.markets[p.marketIndex], p, now, None);
  }

  lemma TradeDrifts(a: I.Accounts, j: nat, direction: PositionDirection, quote: u128, now: i64)
    requires OnCurve(a, j) && I.Trade(a, j, direction, quote, now).Ok?
    ensures Drifts(a, j, I.Trade(a, j, direction, quote, now).value.accounts, OpensNothing(a, j, direction, quote, now))
  {
    if I.AddsTo(a.user.positions[j].baseAssetAmount, direction) {
      IncreaseSlotDrifts(a, j, direction, quote, now);
    } else {
      TradeAgainstDrifts(a, j, direction, quote, now);
    }
  }

  lemma TradeMovesGap(h: House, u: nat, a: I.Accounts, j: nat, direction: PositionDirection, quote: u128, now: i64)
    requires SoundWith(h, u, a) && Seated(a, j) && I.Trade(a, j, direction, quote, now).Ok?
    ensures GapMovesWith(h, u, a, I.Trade(a, j, direction, quote, now).value.accounts, a.user.positions[j].marketIndex,
                         OpensNothing(a, j, direction, quote, now))
  {
    SlotMarketIsSound(h, u, a, j);
    TradeDrifts(a, j, direction, quote, now);
    DriftMovesGap(h, u, a, j, I.Trade(a, j, direction, quote, now).value.accounts, OpensNothing(a, j, direction, quote, now));
  }

  // ----- Everything else leaves bases and the open interest alone

  /** The same bases in the user's slots and the same open interest in the markets. */
  predicate SameCounts(a: I.Accounts, b: I.Accounts) {
    && SameExposure(a.user.positions, b.user.positions)
    && |b.markets| == |a.markets|
    && forall i :: 0 <= i < |a.markets| ==> b.markets[i].openInterest == a.markets[i].openInterest
  }

  lemma SameCountsKeepGaps(h: House, u: nat, a: I.Accounts, b: I.Accounts)
    requires u < |h.users| && SameCounts(a, b)
    ensures GapsKept(h, u, a, b)
  {
    var h1, h2 := Save(h, u, a), Save(h, u, b);
    assert h2.users == h1.users[u := b.user];
    forall i | 0 <= i < |h1.markets| ensures Gap(h2, i) == Gap(h1, i) {
      UsersUpdate(h1.users, u, b.user, i, OpenCount);
      SameTotals(a.user.positions, b.user.positions, i, OpenCount);
    }
  }

  lemma SettleKeepsGaps(h: House, u: nat, a: I.Accounts)
    requires u < |h.users| && I.Settle(a).Ok?
    ensures GapsKept(h, u, a, I.Settle(a).value)
  {
    SettlingKeepsExposure(a.markets, a.user.positions);
    SameCountsKeepGaps(h, u, a, I.Settle(a).value);
  }

  lemma TakeSlotKeepsGaps(h: House, u: nat, a: I.Accounts, index: u64)
    requires u < |h.users| && I.TakeSlot(a.user, index).Ok?
    ensures GapsKept(h, u, a, a.(user := I.TakeSlot(a.user, index).value.0))
  {
    var (user, j) := I.TakeSlot(a.user, index).value;
    var h1, h2 := Save(h, u, a), Save(h, u, a.(user := user));
    if I.FindSlot(a.user.positions, index, 0).None? {
      assert h2.users == h1.users[u := user];
      forall i | 0 <= i < |h1.markets| ensures Gap(h2, i) == Gap(h1, i) {
        StoreMeasure(h1.users, u, j, Position(index, 0, 0, 0, 0), a.user.collateral, i, OpenCount);
      }
    }
  }

  lemma FinishOpenSameCounts(config: I.Config, t: I.Traded, index: nat, direction: PositionDirection,
                             limitPrice: u128, inputs: I.TradeInputs)
    requires index < |t.accounts.markets|
    requires I.FinishOpen(config, t, index, direction, limitPrice, inputs).Ok?
    ensures SameCounts(t.accounts, I.FinishOpen(config, t, index, direction, limitPrice, inputs).value)
    ensures I.FinishOpen(config, t, index, direction, limitPrice, inputs).value.user.positions == t.accounts.user.positions
  {
    var charged := I.ChargeFee(t.accounts, index, inputs.userFee, inputs.feeToMarket).value;
    FundMarketSameCounts(charged, index, inputs.after.price, inputs.fundingBlocked, inputs.now);
  }

  lemma FundMarketSameCounts(a: I.Accounts, index: nat, oraclePrice: i128, blocked: bool, now: i64)
    requires index < |a.markets| && I.FundMarket(a, index, oraclePrice, blocked, now).Ok?
    ensures SameCounts(a, I.FundMarket(a, index, oraclePrice, blocked, now).value)
    ensures I.FundMarket(a, index, oraclePrice, blocked, now).value.user == a.user
  {
  }

  lemma FinishCloseSameCounts(a: I.Accounts, index: nat, inputs: I.TradeInputs)
    requires index < |a.markets| && I.FinishClose(a, index, inputs).Ok?
    ensures SameCounts(a, I.FinishClose(a, index, inputs).value)
  {
    var charged := I.ChargeFee(a, index, inputs.userFee, inputs.feeToMarket).value;
    var read := I.ReadOracle(charged, index, inputs.after, inputs.now).value;
    FundMarketSameCounts(read, index, inputs.after.price, inputs.fundingBlocked, inputs.now);
  }

  lemma ReadOracleSameCounts(a: I.Accounts, index: nat, reading: I.OracleReading, now: i64)
    requires index < |a.markets| && I.ReadOracle(a, index, reading, now).Ok?
    ensures SameCounts(a, I.ReadOracle(a, index, reading, now).value)
  {
  }

  // ----- Instructions

  /** The accounts a trade will be made on, and its slot: settled, seated, the oracle read. */
  function Seat(a: I.Accounts, index: u64, inputs: I.TradeInputs): (r: Result<(I.Accounts, nat)>)
    ensures r.Ok? ==> index < |r.value.0.markets| && r.value.1 < |r.value.0.user.positions|
  {
    var settled :- I.Settle(a);
    SeatSettled(settled, index, inputs)
  }

  function SeatSettled(settled: I.Accounts, index: u64, inputs: I.TradeInputs): (r: Result<(I.Accounts, nat)>)
    ensures r.Ok? ==> index < |r.value.0.markets| && r.value.1 < |r.value.0.user.positions|
  {
    var _ :- Need(index < |settled.markets|, AccountNotFound);
    var (user, j) :- I.TakeSlot(settled.user, index);
    var read :- I.ReadOracle(settled.(user := user), index, inputs.before, inputs.now);
    Ok((read, j))
  }

  lemma OpenTradeMovesGap(h: House, u: nat, a: I.Accounts, index: u64, direction: PositionDirection, quote: u128,
                          inputs: I.TradeInputs)
    requires SoundWith(h, u, a) && index < |a.markets| && a.markets[index].initialized
    requires I.OpenTrade(a, index, direction, quote, inputs).Ok?
    ensures SeatSettled(a, index, inputs).Ok?
    ensures var (read, j) := SeatSettled(a, index, inputs).value;
            && read.user.positions[j].marketIndex == index
            && GapMovesWith(h, u, a, I.OpenTrade(a, index, direction, quote, inputs).value.accounts, index,
                            OpensNothing(read, j, direction, quote, inputs.now))
  {
    var (user, j) := I.TakeSlot(a.user, index).value;
    TakeSlotKeeps(h, u, a, index);
    TakeSlotKeepsGaps(h, u, a, index);
    TakeSlotSound(Save(h, u, a), u, index);
    var seated := a.(user := user);
    ReadOracleKeeps(h, u, seated, index, inputs.before, inputs.now);
    ReadOracleSameCounts(seated, index, inputs.before, inputs.now);
    var read := I.ReadOracle(seated, index, inputs.before, inputs.now).value;
    SameCountsKeepGaps(h, u, seated, read);
    TradeMovesGap(h, u, read, j, direction, quote, inputs.now);
  }

  lemma OpenPositionMovesGap(config: I.Config, h: House, u: nat, a: I.Accounts, index: u64, direction: PositionDirection,
                             quote: u128, limitPrice: u128, inputs: I.TradeInputs)
    requires SoundWith(h, u, a) && I.OpenPosition(config, a, index, direction, quote, limitPrice, inputs).Ok?
    ensures index < |a.markets| && Seat(a, index, inputs).Ok?
    ensures var (read, j) := Seat(a, index, inputs).value;
            && read.user.positions[j].marketIndex == index
            && GapMovesWith(h, u, a, I.OpenPosition(config, a, index, direction, quote, limitPrice, inputs).value, index,
                            OpensNothing(read, j, direction, quote, inputs.now))
  {
    SettleKeeps(h, u, a);
    SettleKeepsGaps(h, u, a);
    var settled := I.Settle(a).value;
    var traded := I.OpenTrade(settled, index, direction, quote, inputs).value;
    FinishOpenSameCounts(config, traded, index, direction, limitPrice, inputs);
    OpenTradeMovesGap(h, u, settled, index, direction, quote, inputs);
    SameCountsKeepGaps(h, u, traded.accounts, I.FinishOpen(config, traded, index, direction, limitPrice, inputs).value);
  }

  lemma ClosePositionKeepsGaps(h: House, u: nat, a: I.Accounts, index: u64, inputs: I.TradeInputs)
    requires SoundWith(h, u, a) && I.ClosePosition(a, index, inputs).Ok?
    ensures GapsKept(h, u, a, I.ClosePosition(a, index, inputs).value)
  {
    SettleKeeps(h, u, a);
    SettleKeepsGaps(h, u, a);
    var settled := I.Settle(a).value;
    var j := I.FindSlot(settled.user.positions, index, 0).value;
    CloseKeepsGaps(h, u, settled, j, inputs.now);
    var closed := I.CloseSlot(settled, j, inputs.now).value.0;
    FinishCloseSameCounts(closed, index, inputs);
    SameCountsKeepGaps(h, u, closed, I.FinishClose(closed, index, inputs).value);
  }

  // ----- Liquidation

  lemma {:induction false} LiquidateSlotsKeepGaps(h: House, u: nat, a: I.Accounts, k: nat, blocked: set<u64>, now: i64)
    requires SoundWith(h, u, a) && k <= |a.user.positions| && I.LiquidateSlots(a, k, blocked, now).Ok?
    ensures GapsKept(h, u, a, I.LiquidateSlots(a, k, blocked, now).value.0)
  {
    if k != 0 {
      LiquidateSlotsKeepGaps(h, u, a, k - 1, blocked, now);
      LiquidateSlotsKeep(h, u, a, k - 1, blocked, now);
      var before := I.LiquidateSlots(a, k - 1, blocked, now).value.0;
      if before.user.positions[k - 1].IsOpen() {
        CloseKeepsGaps(h, u, before, k - 1, now);
      }
    }
  }

  lemma TrimSlotKeepsGaps(config: I.Config, h: House, u: nat, a: I.Accounts, j: nat, blocked: set<u64>, now: i64)
    requires ProperConfig(config)
    requires SoundWith(h, u, a) && j < |a.user.positions| && I.TrimSlot(config, a, j, blocked, now).Ok?
    ensures GapsKept(h, u, a, I.TrimSlot(config, a, j, blocked, now).value.0)
  {
    var p := a.user.positions[j];
    if p.IsOpen() {
      var m := a.markets[p.marketIndex];
      TrimIsGuarded(config, h, u, a, j, blocked, now);
      var toClose := I.PartialValue(config, ValueAndPnl(p.baseAssetAmount, p.quoteAssetAmount, m.amm).value.0).value;
      ReduceKeepsGaps(h, u, a, j, toClose, now, Some(MarkPrice(m.amm).value));
    }
  }

  lemma {:induction false} TrimSlotsKeepGaps(config: I.Config, h: House, u: nat, a: I.Accounts, k: nat, blocked: set<u64>,
                                             now: i64)
    requires ProperConfig(config)
    requires SoundWith(h, u, a) && k <= |a.user.positions| && I.TrimSlots(config, a, k, blocked, now).Ok?
    ensures GapsKept(h, u, a, I.TrimSlots(config, a, k, blocked, now).value.0)
  {
    if k != 0 {
      TrimSlotsKeepGaps(config, h, u, a, k - 1, blocked, now);
      TrimSlotsKeep(config, h, u, a, k - 1, blocked, now);
      TrimSlotKeepsGaps(config, h, u, I.TrimSlots(config, a, k - 1, blocked, now).value.0, k - 1, blocked, now);
    }
  }

  lemma LiquidateKeepsGaps(config: I.Config, h: House, u: nat, a: I.Accounts, blocked: set<u64>, vault: u64, now: i64)
    requires ProperConfig(config)
    requires SoundWith(h, u, a) && I.Liquidate(config, a, blocked, vault, now).Ok?
    ensures GapsKept(h, u, a, I.Liquidate(config, a, blocked, vault, now).value.0)
  {
    SettleKeeps(h, u, a);
    SettleKeepsGaps(h, u, a);
    var settled, after := I.Settle(a).value, I.Liquidate(config, a, blocked, vault, now).value.0;
    var n := |settled.user.positions|;
    if I.MarginRatio(settled).value.marginRatio <= config.marginRatioMaintenance {
      LiquidateSlotsKeepGaps(h, u, settled, n, blocked, now);
      SameCountsKeepGaps(h, u, I.LiquidateSlots(settled, n, blocked, now).value.0, after);
    } else {
      TrimSlotsKeepGaps(config, h, u, settled, n, blocked, now);
      SameCountsKeepGaps(h, u, I.TrimSlots(config, settled, n, blocked, now).value.0, after);
    }
  }

  // ----- Collateral

  lemma DepositKeepsGaps(h: House, u: nat, a: I.Accounts, amount: u64)
    requires u < |h.users| && I.Deposit(a, amount).Ok?
    ensures GapsKept(h, u, a, I.Deposit(a, amount).value)
  {
    var paid := a.(user := a.user.(collateral := a.user.collateral + amount));
    SameCountsKeepGaps(h, u, a, paid);
    SettleKeepsGaps(h, u, paid);
  }

  lemma WithdrawKeepsGaps(config: I.Config, h: House, u: nat, a: I.Accounts, amount: u64, available: u64)
    requires u < |h.users| && I.Withdraw(config, a, amount, available).Ok?
    ensures GapsKept(h, u, a, I.Withdraw(config, a, amount, available).value)
  {
    SettleKeepsGaps(h, u, a);
    SameCountsKeepGaps(h, u, I.Settle(a).value, I.Withdraw(config, a, amount, available).value);
  }

  lemma RewardKeepsGaps(h: House, liquidator: nat, reward: nat)
    requires Reward(h, liquidator, reward).Ok?
    ensures SameGaps(h, Reward(h, liquidator, reward).value)
  {
    if reward != 0 {
      var user := h.users[liquidator];
      forall i | 0 <= i < |h.markets| ensures Gap(Reward(h, liquidator, reward).value, i) == Gap(h, i) {
        UsersUpdate(h.users, liquidator, user.(collateral := user.collateral + reward), i, OpenCount);
      }
    }
  }

  // ----- Users and markets

  lemma CreateUserKeepsGaps(h: House)
    ensures SameGaps(h, h.(users := h.users + [EMPTY_USER]))
  {
    assert (h.users + [EMPTY_USER])[..|h.users|] == h.users;
    forall i: nat ensures SlotsTotal(EMPTY_USER.positions, i, OpenCount) == 0 {
      ClosedTotals(EMPTY_USER.positions, i, OpenCount);
    }
  }

  lemma DeleteUserKeepsGaps(h: House, u: nat)
    requires u < |h.users| && NoOpenPosition(h.users[u])
    ensures SameGaps(h, h.(users := h.users[u := EMPTY_USER]))
  {
    forall i | 0 <= i < |h.markets|
      ensures UsersTotal(h.users[u := EMPTY_USER], i, OpenCount) == UsersTotal(h.users, i, OpenCount)
    {
      UsersUpdate(h.users, u, EMPTY_USER, i, OpenCount);
      ClosedTotals(EMPTY_USER.positions, i, OpenCount);
      ClosedTotals(h.users[u].positions, i, OpenCount);
    }
  }

  lemma StepMarketKeepsGaps(h: House, index: nat, call: Call)
    requires Sound(h) && index < |h.markets| && StepMarket(h, index, call).Ok?
    ensures SameGaps(h, StepMarket(h, index, call).value)
  {
    assert CurveSound(h.markets[index]);
    StepMarketInterest(h, index, call);
  }

  /** A call on one market leaves the users and the open interest alone. */
  lemma StepMarketInterest(h: House, index: nat, call: Call)
    requires index < |h.markets| && StepMarket(h, index, call).Ok?
    requires !h.markets[index].initialized ==> h.markets[index].openInterest == 0
    ensures var h' := StepMarket(h, index, call).value;
            && h'.users == h.users && |h'.markets| == |h.markets|
            && forall i :: 0 <= i < |h.markets| ==> h'.markets[i].openInterest == h.markets[i].openInterest
  {
    var m := h.markets[index];
    match call
    case UpdateFunding(_, oraclePrice, blocked, now) =>
      if m != UpdateFundingRate(m, oraclePrice, blocked, now).value {
        ApplyFundingShape(m, oraclePrice, now);
      }
    case _ =>
  }

  /** Whether a call succeeds in opening a position that acquires no base, in a market; it can be told
      from the state and the call. */
  predicate IdleCall(h: House, e: Event, i: int) {
    && e.call.OpenPosition? && e.call.index == i && Step(e.config, h, e.call).Ok? && e.call.user < |h.users|
    && var seat := Seat(Load(h, e.call.user), e.call.index, e.call.inputs);
       && seat.Ok? && seat.value.0.user.positions[seat.value.1].marketIndex == i
       && OpensNothing(seat.value.0, seat.value.1, e.call.direction, e.call.quote, e.call.inputs.now)
  }

  lemma OpenStepMovesGap(h: House, e: Event)
    requires Sound(h) && e.call.OpenPosition? && Step(e.config, h, e.call).Ok?
    ensures GapMoves(h, Next(h, e), e.call.index, IdleCall(h, e, e.call.index))
  {
    var u := e.call.user;
    LoadedSound(h, u);
    var a := Load(h, u);
    assert Save(h, u, a) == h;
    OpenPositionMovesGap(e.config, h, u, a, e.call.index, e.call.direction, e.call.quote, e.call.limitPrice, e.call.inputs);
  }

  lemma StepUserKeepsGaps(config: I.Config, h: House, u: nat, call: Call)
    requires Sound(h) && ProperConfig(config) && u < |h.users| && StepUser(config, h, u, call).Ok?
    requires call.DeleteUser? ==> NoOpenPosition(h.users[u])
    requires !call.OpenPosition?
    ensures SameGaps(h, StepUser(config, h, u, call).value)
  {
    LoadedSound(h, u);
    var a := Load(h, u);
    assert Save(h, u, a) == h;
    match call
    case DeleteUser(_) => DeleteUserKeepsGaps(h, u);
    case Deposit(_, amount) => DepositKeepsGaps(h, u, a, amount);
    case Withdraw(_, amount, available) => WithdrawKeepsGaps(config, h, u, a, amount, available);
    case ClosePosition(_, index, inputs) => ClosePositionKeepsGaps(h, u, a, index, inputs);
    case Liquidate(_, liquidator, blocked, vault, now) =>
      LiquidateKeepsGaps(config, h, u, a, blocked, vault, now);
      var (after, reward) := I.Liquidate(config, a, blocked, vault, now).value;
      RewardKeepsGaps(Save(h, u, after), liquidator, reward);
    case SettleFunding(_) => SettleKeepsGaps(h, u, a);
    case _ =>
  }

  // ----- Runs

  /** A call moves no gap but that of the market in which it opens a position without a base. */
  lemma NextMovesGaps(h: House, e: Event, i: nat)
    requires Sound(h) && Clean(h, e) && i < MARKETS
    ensures |Next(h, e).markets| == |h.markets|
    ensures Gap(Next(h, e), i) == Gap(h, i) + (if IdleCall(h, e, i) then 1 else 0)
  {
    if Step(e.config, h, e.call).Ok? {
      if e.call.CreateUser? {
        CreateUserKeepsGaps(h);
      } else if e.call.OpenPosition? {
        OpenStepMovesGap(h, e);
      } else if UserOf(e.call).Some? {
        StepUserKeepsGaps(e.config, h, UserOf(e.call).value, e.call);
      } else {
        StepMarketKeepsGaps(h, e.call.index, e.call);
      }
    }
  }

  /** How often a run opened a position without a base in a market. */
  function IdleCalls(events: seq<Event>, i: int): nat {
    if events == [] then 0 else
      var rest := events[..|events| - 1];
      IdleCalls(rest, i) + (if IdleCall(Run(Genesis(), rest), events[|events| - 1], i) then 1 else 0)
  }

  /** In every run, a market's open interest is the number of positions open in it and of the times a
      position was opened without a base. So it is the number of open positions if and only if every
      opening trade acquired a base. */
  lemma {:induction false} OpenInterestCountsPositions(events: seq<Event>, i: nat)
    requires CleanRun(Genesis(), events) && i < MARKETS
    ensures var h := Run(Genesis(), events);
            && |h.markets| == MARKETS
            && h.markets[i].openInterest == UsersTotal(h.users, i, OpenCount) + IdleCalls(events, i)
            && (h.markets[i].openInterest == UsersTotal(h.users, i, OpenCount) <==> IdleCalls(events, i) == 0)
  {
    if events != [] {
      var rest := events[..|events| - 1];
      RunSound(rest);
      OpenInterestCountsPositions(rest, i);
      NextMovesGaps(Run(Genesis(), rest), events[|events| - 1], i);
      assert Gap(Run(Genesis(), events), i)
          == Gap(Run(Genesis(), rest), i) + (if IdleCall(Run(Genesis(), rest), events[|events| - 1], i) then 1 else 0);
    }
  }
}
