/** Every call keeps the invariant of the house, so every run does. */
module Runs {
  import opened Numeric
  import opened State
  import opened Curve
  import opened Twap
  import opened Trading
  import opened Shapes
  import opened Funding
  import opened FundingRates
  import opened Aggregates
  import opened ClearingHouse
  import opened Invariants
  import I = Instructions

  /** The second of two saves of the same user is the one that stands. */
  lemma SaveTwice(h: House, u: nat, a: I.Accounts, b: I.Accounts)
    requires u < |h.users|
    ensures Load(Save(h, u, a), u) == a
    ensures Save(Save(h, u, a), u, b) == Save(h, u, b)
  {
  }

  // ----- Changes that leave exposures alone

  /** The same bases in the same markets, slot by slot. */
  predicate SameExposure(before: seq<Position>, after: seq<Position>) {
    && |after| == |before|
    && forall j :: 0 <= j < |before| ==>
         && after[j].marketIndex == before[j].marketIndex
         && after[j].baseAssetAmount == before[j].baseAssetAmount
  }

  lemma {:induction false} SameTotals(before: seq<Position>, after: seq<Position>, index: int, measure: Measure)
    requires SameExposure(before, after)
    ensures SlotsTotal(after, index, measure) == SlotsTotal(before, index, measure)
  {
    if before != [] {
      var n := |before| - 1;
      SameTotals(before[..n], after[..n], index, measure);
    }
  }

  lemma ReplaceUserSound(h: House, u: nat, user: User)
    requires Sound(h) && u < |h.users| && SameExposure(h.users[u].positions, user.positions)
    ensures Sound(h.(users := h.users[u := user]))
  {
    var h' := h.(users := h.users[u := user]);
    forall i | 0 <= i < |h'.markets|
      ensures CurveSound(h'.markets[i]) && FeesSound(h'.markets[i].amm) && AggregatesMatch(h'.markets[i], h'.users, i)
    {
      forall measure: Measure ensures UsersTotal(h'.users, i, measure) == UsersTotal(h.users, i, measure) {
        UsersUpdate(h.users, u, user, i, measure);
        SameTotals(h.users[u].positions, user.positions, i, measure);
      }
    }
  }

  /** The same reserves, root and minimum trade; a sound fee pool. */
  predicate SameCurve(before: Amm, after: Amm) {
    && after.baseAssetReserve == before.baseAssetReserve
    && after.quoteAssetReserve == before.quoteAssetReserve
    && after.sqrtK == before.sqrtK
    && after.minimumTradeSize == before.minimumTradeSize
    && FeesSound(after)
  }

  lemma ReplaceAmmSound(h: House, index: nat, amm: Amm)
    requires Sound(h) && index < |h.markets| && SameCurve(h.markets[index].amm, amm)
    ensures Sound(h.(markets := h.markets[index := h.markets[index].(amm := amm)]))
  {
  }

  // ----- Settlement

  lemma {:induction false} SettlingKeepsExposure(markets: seq<Market>, positions: seq<Position>)
    requires SettlePositions(markets, positions).Ok?
    ensures SameExposure(positions, SettlePositions(markets, positions).value.0)
  {
    if positions != [] {
      var n := |positions| - 1;
      SettlingKeepsExposure(markets, positions[..n]);
    }
  }

  lemma SettleSound(h: House, u: nat)
    requires Sound(h) && u < |h.users| && I.Settle(Load(h, u)).Ok?
    ensures Sound(Save(h, u, I.Settle(Load(h, u)).value))
  {
    SettlingKeepsExposure(h.markets, h.users[u].positions);
    ReplaceUserSound(h, u, I.Settle(Load(h, u)).value.user);
  }

  // ----- Fees, oracle readings and funding

  lemma ReadOracleSound(h: House, u: nat, index: nat, reading: I.OracleReading, now: i64)
    requires Sound(h) && u < |h.users| && index < |h.markets|
    requires I.ReadOracle(Load(h, u), index, reading, now).Ok?
    ensures Sound(Save(h, u, I.ReadOracle(Load(h, u), index, reading, now).value))
  {
    assert h.users[u := h.users[u]] == h.users;
    if reading.valid {
      ReplaceAmmSound(h, index, UpdateOracleTwap(h.markets[index].amm, now, reading.price).value);
    }
  }

  /** A fee raises the pool by at least as much as its floor. */
  lemma ChargeFeeSound(h: House, u: nat, index: nat, userFee: u128, feeToMarket: u128)
    requires Sound(h) && u < |h.users| && index < |h.markets|
    requires I.ChargeFee(Load(h, u), index, userFee, feeToMarket).Ok?
    ensures Sound(Save(h, u, I.ChargeFee(Load(h, u), index, userFee, feeToMarket).value))
  {
    var a := I.ChargeFee(Load(h, u), index, userFee, feeToMarket).value;
    ReplaceAmmSound(h, index, a.markets[index].amm);
    ReplaceUserSound(h.(markets := a.markets), u, a.user);
  }

  lemma UpdateFundingRateSound(m: Market, oraclePrice: i128, blocked: bool, now: i64)
    requires UpdateFundingRate(m, oraclePrice, blocked, now).Ok? && FeesSound(m.amm)
    ensures var m' := UpdateFundingRate(m, oraclePrice, blocked, now).value;
            m' == m.(amm := m'.amm) && SameCurve(m.amm, m'.amm)
  {
    if m != UpdateFundingRate(m, oraclePrice, blocked, now).value {
      ApplyFundingShape(m, oraclePrice, now);
      FundingSpendsExcessOnly(Averaged(m, oraclePrice, now),
                              UpdateFundingRate(m, oraclePrice, blocked, now).value.amm.lastFundingRate);
    }
  }

  lemma FundMarketSound(h: House, u: nat, index: nat, oraclePrice: i128, blocked: bool, now: i64)
    requires Sound(h) && u < |h.users| && index < |h.markets|
    requires I.FundMarket(Load(h, u), index, oraclePrice, blocked, now).Ok?
    ensures Sound(Save(h, u, I.FundMarket(Load(h, u), index, oraclePrice, blocked, now).value))
  {
    assert h.users[u := h.users[u]] == h.users;
    UpdateFundingRateSound(h.markets[index], oraclePrice, blocked, now);
    ReplaceAmmSound(h, index, UpdateFundingRate(h.markets[index], oraclePrice, blocked, now).value.amm);
  }

  // ----- Trades

  /** Clearing a free slot for a market leaves every measure alone and seats the user alone there. */
  lemma TakeSlotSound(h: House, u: nat, index: u64)
    requires Sound(h) && u < |h.users| && I.TakeSlot(h.users[u], index).Ok?
    ensures var (user, j) := I.TakeSlot(h.users[u], index).value;
            && Sound(h.(users := h.users[u := user]))
            && user.positions[j].marketIndex == index
            && OnlySlot(user.positions, j, index)
  {
    var (user, j) := I.TakeSlot(h.users[u], index).value;
    if I.FindSlot(h.users[u].positions, index, 0).Some? {
      OpenSlotIsOnly(h.users[u].positions, j);
      assert h.users[u := user] == h.users;
    } else {
      var h' := h.(users := h.users[u := user]);
      forall i | 0 <= i < |h'.markets|
        ensures CurveSound(h'.markets[i]) && FeesSound(h'.markets[i].amm) && AggregatesMatch(h'.markets[i], h'.users, i)
      {
        forall measure: Measure ensures UsersTotal(h'.users, i, measure) == UsersTotal(h.users, i, measure) {
          StoreMeasure(h.users, u, j, Position(index, 0, 0, 0, 0), h.users[u].collateral, i, measure);
        }
      }
    }
  }

  /** The house is sound once the accounts are written back. */
  predicate SoundWith(h: House, u: nat, a: I.Accounts) {
    u < |h.users| && Sound(Save(h, u, a))
  }

  /** The user is seated in a slot for a live market, alone there. */
  predicate Seated(a: I.Accounts, j: nat) {
    && j < |a.user.positions|
    && var index := a.user.positions[j].marketIndex;
       && index < |a.markets| && a.markets[index].initialized
       && OnlySlot(a.user.positions, j, index)
  }

  lemma IncreaseKeeps(h: House, u: nat, a: I.Accounts, j: nat, direction: PositionDirection, quote: u128, now: i64)
    requires SoundWith(h, u, a) && Seated(a, j) && I.AddsTo(a.user.positions[j].baseAssetAmount, direction)
    requires I.IncreaseSlot(a, j, direction, quote, now).Ok?
    ensures SoundWith(h, u, I.IncreaseSlot(a, j, direction, quote, now).value.0)
  {
    SaveTwice(h, u, a, I.IncreaseSlot(a, j, direction, quote, now).value.0);
    UserLength(h, u, a);
    IncreaseSlotSound(Save(h, u, a), u, j, direction, quote, now);
  }

  lemma UserLength(h: House, u: nat, a: I.Accounts)
    requires SoundWith(h, u, a)
    ensures UserSound(a.user)
  {
    assert Save(h, u, a).users[u] == a.user;
  }

  /** The market of a user's open or seated slot is live and sound. */
  lemma SlotMarketIsSound(h: House, u: nat, a: I.Accounts, j: nat)
    requires SoundWith(h, u, a) && j < |a.user.positions| && a.user.positions[j].marketIndex < |a.markets|
    requires a.user.positions[j].IsOpen() || a.markets[a.user.positions[j].marketIndex].initialized
    ensures var m := a.markets[a.user.positions[j].marketIndex];
            m.initialized && CurveSound(m)
  {
    var h' := Save(h, u, a);
    assert h'.users[u] == a.user;
    if a.user.positions[j].IsOpen() {
      OpenSlotIsLive(h', u, j);
    }
    assert CurveSound(h'.markets[a.user.positions[j].marketIndex]);
  }

  lemma ReduceKeeps(h: House, u: nat, a: I.Accounts, j: nat, quote: u128, now: i64, mark: Option<u128>)
    requires SoundWith(h, u, a) && j < |a.user.positions|
    requires var p := a.user.positions[j];
             && p.marketIndex < |a.markets| && Guarded(quote, a.markets[p.marketIndex], p)
             && I.ReduceSlot(a, j, DirectionToClose(p.baseAssetAmount), quote, now, mark).Ok?
    ensures var direction := DirectionToClose(a.user.positions[j].baseAssetAmount);
            SoundWith(h, u, I.ReduceSlot(a, j, direction, quote, now, mark).value.0)
  {
    var direction := DirectionToClose(a.user.positions[j].baseAssetAmount);
    SaveTwice(h, u, a, I.ReduceSlot(a, j, direction, quote, now, mark).value.0);
    UserLength(h, u, a);
    ReduceSlotSound(Save(h, u, a), u, j, quote, now, mark);
  }

  /** Closing a slot leaves the user seated there, flat. */
  lemma CloseKeeps(h: House, u: nat, a: I.Accounts, j: nat, now: i64)
    requires SoundWith(h, u, a) && j < |a.user.positions| && a.user.positions[j].IsOpen()
    requires I.CloseSlot(a, j, now).Ok?
    ensures var a' := I.CloseSlot(a, j, now).value.0;
            SoundWith(h, u, a') && Seated(a', j) && !a'.user.positions[j].IsOpen()
  {
    SaveTwice(h, u, a, I.CloseSlot(a, j, now).value.0);
    UserLength(h, u, a);
    OpenSlotIsOnly(a.user.positions, j);
    CloseSlotSound(Save(h, u, a), u, j, now);
  }

  lemma ReverseKeeps(h: House, u: nat, a: I.Accounts, j: nat, direction: PositionDirection, quote: u128, rest: u128,
                     value: u128, size: nat, now: i64)
    requires SoundWith(h, u, a) && Seated(a, j) && !a.user.positions[j].IsOpen()
    requires I.Reverse(a, j, direction, quote, rest, value, size, now).Ok?
    ensures SoundWith(h, u, I.Reverse(a, j, direction, quote, rest, value, size, now).value.accounts)
  {
    IncreaseKeeps(h, u, a, j, direction, rest, now);
  }

  lemma FlipKeeps(h: House, u: nat, a: I.Accounts, j: nat, direction: PositionDirection, quote: u128, value: u128, now: i64)
    requires SoundWith(h, u, a) && Seated(a, j) && a.user.positions[j].IsOpen()
    requires I.Flip(a, j, direction, quote, value, now).Ok?
    ensures SoundWith(h, u, I.Flip(a, j, direction, quote, value, now).value.accounts)
  {
    CloseKeeps(h, u, a, j, now);
    var rest, size := FitU128(quote - value).value, Abs(a.user.positions[j].baseAssetAmount);
    var closed := I.CloseSlot(a, j, now).value.0;
    assert I.Flip(a, j, direction, quote, value, now) == I.Reverse(closed, j, direction, quote, rest, value, size, now);
    ReverseKeeps(h, u, closed, j, direction, quote, rest, value, size, now);
  }

  lemma TradeAgainstKeeps(h: House, u: nat, a: I.Accounts, j: nat, direction: PositionDirection, quote: u128, now: i64)
    requires SoundWith(h, u, a) && Seated(a, j) && !I.AddsTo(a.user.positions[j].baseAssetAmount, direction)
    requires I.TradeAgainst(a, j, direction, quote, now).Ok?
    ensures SoundWith(h, u, I.TradeAgainst(a, j, direction, quote, now).value.accounts)
  {
    var p := a.user.positions[j];
    var amm := a.markets[p.marketIndex].amm;
    var value := ValueAndPnl(p.baseAssetAmount, p.quoteAssetAmount, amm).value.0;
    var quote' := if I.ShouldRound(amm, quote, value).value then value else quote;
    assert direction == DirectionToClose(p.baseAssetAmount);
    if value > quote' {
      ReduceKeeps(h, u, a, j, quote', now, None);
    } else {
      FlipKeeps(h, u, a, j, direction, quote', value, now);
    }
  }

  lemma TradeKeeps(h: House, u: nat, a: I.Accounts, j: nat, direction: PositionDirection, quote: u128, now: i64)
    requires SoundWith(h, u, a) && Seated(a, j) && I.Trade(a, j, direction, quote, now).Ok?
    ensures SoundWith(h, u, I.Trade(a, j, direction, quote, now).value.accounts)
  {
    if I.AddsTo(a.user.positions[j].baseAssetAmount, direction) {
      IncreaseKeeps(h, u, a, j, direction, quote, now);
    } else {
      TradeAgainstKeeps(h, u, a, j, direction, quote, now);
    }
  }

  lemma SettleKeeps(h: House, u: nat, a: I.Accounts)
    requires SoundWith(h, u, a) && I.Settle(a).Ok?
    ensures SoundWith(h, u, I.Settle(a).value)
  {
    SaveTwice(h, u, a, I.Settle(a).value);
    SettleSound(Save(h, u, a), u);
  }

  lemma CollateralKeeps(h: House, u: nat, a: I.Accounts, collateral: u128)
    requires SoundWith(h, u, a)
    ensures SoundWith(h, u, a.(user := a.user.(collateral := collateral)))
  {
    SaveTwice(h, u, a, a.(user := a.user.(collateral := collateral)));
    ReplaceUserSound(Save(h, u, a), u, a.user.(collateral := collateral));
  }

  lemma TakeSlotKeeps(h: House, u: nat, a: I.Accounts, index: u64)
    requires SoundWith(h, u, a) && index < |a.markets| && a.markets[index].initialized && I.TakeSlot(a.user, index).Ok?
    ensures var (user, j) := I.TakeSlot(a.user, index).value;
            SoundWith(h, u, a.(user := user)) && Seated(a.(user := user), j)
  {
    var (user, j) := I.TakeSlot(a.user, index).value;
    SaveTwice(h, u, a, a.(user := user));
    TakeSlotSound(Save(h, u, a), u, index);
  }

  lemma ReadOracleKeeps(h: House, u: nat, a: I.Accounts, index: nat, reading: I.OracleReading, now: i64)
    requires SoundWith(h, u, a) && index < |a.markets| && I.ReadOracle(a, index, reading, now).Ok?
    ensures var a' := I.ReadOracle(a, index, reading, now).value;
            && SoundWith(h, u, a') && a'.user == a.user && |a'.markets| == |a.markets|
            && forall i :: 0 <= i < |a.markets| ==> a'.markets[i].initialized == a.markets[i].initialized
  {
    SaveTwice(h, u, a, I.ReadOracle(a, index, reading, now).value);
    ReadOracleSound(Save(h, u, a), u, index, reading, now);
  }

  lemma ChargeFeeKeeps(h: House, u: nat, a: I.Accounts, index: nat, userFee: u128, feeToMarket: u128)
    requires SoundWith(h, u, a) && index < |a.markets| && I.ChargeFee(a, index, userFee, feeToMarket).Ok?
    ensures SoundWith(h, u, I.ChargeFee(a, index, userFee, feeToMarket).value)
  {
    SaveTwice(h, u, a, I.ChargeFee(a, index, userFee, feeToMarket).value);
    ChargeFeeSound(Save(h, u, a), u, index, userFee, feeToMarket);
  }

  lemma FundMarketKeeps(h: House, u: nat, a: I.Accounts, index: nat, oraclePrice: i128, blocked: bool, now: i64)
    requires SoundWith(h, u, a) && index < |a.markets| && I.FundMarket(a, index, oraclePrice, blocked, now).Ok?
    ensures SoundWith(h, u, I.FundMarket(a, index, oraclePrice, blocked, now).value)
  {
    SaveTwice(h, u, a, I.FundMarket(a, index, oraclePrice, blocked, now).value);
    FundMarketSound(Save(h, u, a), u, index, oraclePrice, blocked, now);
  }

  // ----- Instructions

  lemma OpenTradeKeeps(h: House, u: nat, a: I.Accounts, index: u64, direction: PositionDirection, quote: u128,
                       inputs: I.TradeInputs)
    requires SoundWith(h, u, a) && index < |a.markets| && a.markets[index].initialized
    requires I.OpenTrade(a, index, direction, quote, inputs).Ok?
    ensures SoundWith(h, u, I.OpenTrade(a, index, direction, quote, inputs).value.accounts)
  {
    var (user, j) := I.TakeSlot(a.user, index).value;
    TakeSlotKeeps(h, u, a, index);
    var seated := a.(user := user);
    ReadOracleKeeps(h, u, seated, index, inputs.before, inputs.now);
    TradeKeeps(h, u, I.ReadOracle(seated, index, inputs.before, inputs.now).value, j, direction, quote, inputs.now);
  }

  lemma FinishOpenKeeps(config: I.Config, h: House, u: nat, t: I.Traded, index: nat, direction: PositionDirection,
                        limitPrice: u128, inputs: I.TradeInputs)
    requires SoundWith(h, u, t.accounts) && index < |t.accounts.markets|
    requires I.FinishOpen(config, t, index, direction, limitPrice, inputs).Ok?
    ensures SoundWith(h, u, I.FinishOpen(config, t, index, direction, limitPrice, inputs).value)
  {
    ChargeFeeKeeps(h, u, t.accounts, index, inputs.userFee, inputs.feeToMarket);
    FundMarketKeeps(h, u, I.ChargeFee(t.accounts, index, inputs.userFee, inputs.feeToMarket).value, index,
                    inputs.after.price, inputs.fundingBlocked, inputs.now);
  }

  lemma OpenPositionKeeps(config: I.Config, h: House, u: nat, a: I.Accounts, index: u64, direction: PositionDirection,
                          quote: u128, limitPrice: u128, inputs: I.TradeInputs)
    requires SoundWith(h, u, a) && I.OpenPosition(config, a, index, direction, quote, limitPrice, inputs).Ok?
    ensures SoundWith(h, u, I.OpenPosition(config, a, index, direction, quote, limitPrice, inputs).value)
  {
    SettleKeeps(h, u, a);
    var settled := I.Settle(a).value;
    OpenTradeKeeps(h, u, settled, index, direction, quote, inputs);
    FinishOpenKeeps(config, h, u, I.OpenTrade(settled, index, direction, quote, inputs).value, index, direction,
                    limitPrice, inputs);
  }

  lemma FinishCloseKeeps(h: House, u: nat, a: I.Accounts, index: nat, inputs: I.TradeInputs)
    requires SoundWith(h, u, a) && index < |a.markets| && I.FinishClose(a, index, inputs).Ok?
    ensures SoundWith(h, u, I.FinishClose(a, index, inputs).value)
  {
    ChargeFeeKeeps(h, u, a, index, inputs.userFee, inputs.feeToMarket);
    var charged := I.ChargeFee(a, index, inputs.userFee, inputs.feeToMarket).value;
    ReadOracleKeeps(h, u, charged, index, inputs.after, inputs.now);
    FundMarketKeeps(h, u, I.ReadOracle(charged, index, inputs.after, inputs.now).value, index,
                    inputs.after.price, inputs.fundingBlocked, inputs.now);
  }

  lemma ClosePositionKeeps(h: House, u: nat, a: I.Accounts, index: u64, inputs: I.TradeInputs)
    requires SoundWith(h, u, a) && I.ClosePosition(a, index, inputs).Ok?
    ensures SoundWith(h, u, I.ClosePosition(a, index, inputs).value)
  {
    SettleKeeps(h, u, a);
    var settled := I.Settle(a).value;
    var j := I.FindSlot(settled.user.positions, index, 0).value;
    CloseKeeps(h, u, settled, j, inputs.now);
    FinishCloseKeeps(h, u, I.CloseSlot(settled, j, inputs.now).value.0, index, inputs);
  }

  // ----- Liquidation

  lemma LiquidateSlotKeeps(h: House, u: nat, a: I.Accounts, j: nat, blocked: set<u64>, now: i64)
    requires SoundWith(h, u, a) && j < |a.user.positions| && I.LiquidateSlot(a, j, blocked, now).Ok?
    ensures SoundWith(h, u, I.LiquidateSlot(a, j, blocked, now).value.0)
  {
    if a.user.positions[j].IsOpen() {
      CloseKeeps(h, u, a, j, now);
    }
  }

  lemma {:induction false} LiquidateSlotsKeep(h: House, u: nat, a: I.Accounts, k: nat, blocked: set<u64>, now: i64)
    requires SoundWith(h, u, a) && k <= |a.user.positions| && I.LiquidateSlots(a, k, blocked, now).Ok?
    ensures SoundWith(h, u, I.LiquidateSlots(a, k, blocked, now).value.0)
  {
    if k != 0 {
      LiquidateSlotsKeep(h, u, a, k - 1, blocked, now);
      LiquidateSlotKeeps(h, u, I.LiquidateSlots(a, k - 1, blocked, now).value.0, k - 1, blocked, now);
    }
  }

  /** The fraction a partial liquidation closes is a proper one. */
  predicate ProperConfig(config: I.Config) {
    config.partialCloseNumerator < config.partialCloseDenominator
  }

  /** A swap that passes the minimum trade size is of a positive amount, so a proper fraction of a
      value that is large enough to swap is below the value. */
  lemma FractionGuards(config: I.Config, value: u128, peg: u128, minimum: nat)
    requires ProperConfig(config) && 0 < peg && 1 <= minimum
    requires I.PartialValue(config, value).Ok?
    requires minimum <= Reserves(I.PartialValue(config, value).value, peg)
    ensures I.PartialValue(config, value).value < value
  {
    var numerator, denominator := config.partialCloseNumerator, config.partialCloseDenominator;
    var part := I.PartialValue(config, value).value;
    if part == 0 {
      FloorUnique(0, peg, 0);
    }
    FloorBounds(value * numerator, denominator);
    if value == 0 {
      FloorUnique(0, denominator, 0);
    } else if value <= part {
      MulMono(value, part, denominator);
      MulMono(numerator + 1, denominator, value);
    }
  }

  lemma TrimSlotKeeps(config: I.Config, h: House, u: nat, a: I.Accounts, j: nat, blocked: set<u64>, now: i64)
    requires ProperConfig(config)
    requires SoundWith(h, u, a) && j < |a.user.positions| && I.TrimSlot(config, a, j, blocked, now).Ok?
    ensures SoundWith(h, u, I.TrimSlot(config, a, j, blocked, now).value.0)
  {
    var p := a.user.positions[j];
    if p.IsOpen() {
      var m := a.markets[p.marketIndex];
      TrimIsGuarded(config, h, u, a, j, blocked, now);
      var toClose := I.PartialValue(config, ValueAndPnl(p.baseAssetAmount, p.quoteAssetAmount, m.amm).value.0).value;
      ReduceKeeps(h, u, a, j, toClose, now, Some(MarkPrice(m.amm).value));
    }
  }

  lemma TrimIsGuarded(config: I.Config, h: House, u: nat, a: I.Accounts, j: nat, blocked: set<u64>, now: i64)
    requires ProperConfig(config) && SoundWith(h, u, a)
    requires j < |a.user.positions| && a.user.positions[j].IsOpen() && I.TrimSlot(config, a, j, blocked, now).Ok?
    ensures var p := a.user.positions[j];
            var m := a.markets[p.marketIndex];
            var value := ValueAndPnl(p.baseAssetAmount, p.quoteAssetAmount, m.amm).value.0;
            Guarded(I.PartialValue(config, value).value, m, p)
  {
    var p := a.user.positions[j];
    var m := a.markets[p.marketIndex];
    var h' := Save(h, u, a);
    OpenSlotIsLive(h', u, j);
    var value := ValueAndPnl(p.baseAssetAmount, p.quoteAssetAmount, m.amm).value.0;
    var toClose, mark := I.PartialValue(config, value).value, Some(MarkPrice(m.amm).value);
    var direction := DirectionToClose(p.baseAssetAmount);
    ReduceShape(direction, toClose, a.user.collateral, m, p, now, mark);
    SwapQuoteShape(m.amm, toClose, QuoteSwapDirection(direction), now, mark);
    assert CurveSound(h'.markets[p.marketIndex]);
    FractionGuards(config, value, m.amm.pegMultiplier, m.amm.minimumTradeSize);
  }

  lemma {:induction false} TrimSlotsKeep(config: I.Config, h: House, u: nat, a: I.Accounts, k: nat, blocked: set<u64>, now: i64)
    requires ProperConfig(config)
    requires SoundWith(h, u, a) && k <= |a.user.positions| && I.TrimSlots(config, a, k, blocked, now).Ok?
    ensures SoundWith(h, u, I.TrimSlots(config, a, k, blocked, now).value.0)
  {
    if k != 0 {
      TrimSlotsKeep(config, h, u, a, k - 1, blocked, now);
      TrimSlotKeeps(config, h, u, I.TrimSlots(config, a, k - 1, blocked, now).value.0, k - 1, blocked, now);
    }
  }

  lemma PenaliseKeeps(h: House, u: nat, a: I.Accounts, fee: u128, vault: u64, shareDenominator: u64)
    requires SoundWith(h, u, a) && I.Penalise(a, fee, vault, shareDenominator).Ok?
    ensures SoundWith(h, u, I.Penalise(a, fee, vault, shareDenominator).value.0)
  {
    CollateralKeeps(h, u, a, a.user.collateral - fee);
  }

  lemma LiquidateKeeps(config: I.Config, h: House, u: nat, a: I.Accounts, blocked: set<u64>, vault: u64, now: i64)
    requires ProperConfig(config)
    requires SoundWith(h, u, a) && I.Liquidate(config, a, blocked, vault, now).Ok?
    ensures SoundWith(h, u, I.Liquidate(config, a, blocked, vault, now).value.0)
  {
    SettleKeeps(h, u, a);
    var settled := I.Settle(a).value;
    LiquidateSettledKeeps(config, h, u, settled, I.MarginRatio(settled).value, blocked, vault, now);
  }

  lemma LiquidateSettledKeeps(config: I.Config, h: House, u: nat, a: I.Accounts, margin: I.Margin, blocked: set<u64>,
                              vault: u64, now: i64)
    requires ProperConfig(config)
    requires SoundWith(h, u, a) && I.LiquidateSettled(config, a, margin, blocked, vault, now).Ok?
    ensures SoundWith(h, u, I.LiquidateSettled(config, a, margin, blocked, vault, now).value.0)
  {
    if margin.marginRatio <= config.marginRatioMaintenance {
      LiquidateSlotsKeep(h, u, a, |a.user.positions|, blocked, now);
      var closed := I.LiquidateSlots(a, |a.user.positions|, blocked, now).value.0;
      var fee := I.Fraction(closed.user.collateral, config.fullPenaltyNumerator, config.fullPenaltyDenominator).value;
      PenaliseKeeps(h, u, closed, fee, vault, config.fullLiquidatorShareDenominator);
    } else {
      TrimSlotsKeep(config, h, u, a, |a.user.positions|, blocked, now);
      var trimmed := I.TrimSlots(config, a, |a.user.positions|, blocked, now).value.0;
      var fee := I.Fraction(margin.totalCollateral, config.partialPenaltyNumerator, config.partialPenaltyDenominator).value;
      PenaliseKeeps(h, u, trimmed, fee, vault, config.partialLiquidatorShareDenominator);
    }
  }

  // ----- Users without positions

  predicate NoOpenPosition(u: User) {
    forall j :: 0 <= j < |u.positions| ==> !u.positions[j].IsOpen()
  }

  lemma CreateUserSound(h: House)
    requires Sound(h)
    ensures Sound(h.(users := h.users + [EMPTY_USER]))
  {
    var h' := h.(users := h.users + [EMPTY_USER]);
    assert h'.users[..|h.users|] == h.users;
    forall i | 0 <= i < |h'.markets|
      ensures AggregatesMatch(h'.markets[i], h'.users, i)
    {
      forall measure: Measure ensures UsersTotal(h'.users, i, measure) == UsersTotal(h.users, i, measure) {
        ClosedTotals(EMPTY_USER.positions, i, measure);
      }
    }
  }

  lemma DeleteUserSound(h: House, u: nat)
    requires Sound(h) && u < |h.users| && NoOpenPosition(h.users[u])
    ensures Sound(h.(users := h.users[u := EMPTY_USER]))
  {
    var h' := h.(users := h.users[u := EMPTY_USER]);
    forall i | 0 <= i < |h'.markets|
      ensures AggregatesMatch(h'.markets[i], h'.users, i)
    {
      forall measure: Measure ensures UsersTotal(h'.users, i, measure) == UsersTotal(h.users, i, measure) {
        UsersUpdate(h.users, u, EMPTY_USER, i, measure);
        ClosedTotals(EMPTY_USER.positions, i, measure);
        ClosedTotals(h.users[u].positions, i, measure);
      }
    }
  }

  lemma {:induction false} OpenSlotHasBase(positions: seq<Position>, j: nat)
    requires j < |positions| && positions[j].IsOpen()
    ensures var index := positions[j].marketIndex;
            SlotsTotal(positions, index, LongBase) - SlotsTotal(positions, index, ShortBase) > 0
  {
    var n := |positions| - 1;
    SlotsTotalSigns(positions[..n], positions[j].marketIndex);
    if j < n {
      OpenSlotHasBase(positions[..n], j);
    }
  }

  /** Deleting a user checks only that his collateral is gone. It keeps the aggregates equal to the
      users exactly when he has no open position left. */
  lemma DeleteKeepsAggregatesIff(h: House, u: nat)
    requires Sound(h) && u < |h.users| && h.users[u].collateral == 0
    ensures Delete(h, u).Ok?
    ensures Sound(Delete(h, u).value) <==> NoOpenPosition(h.users[u])
  {
    if NoOpenPosition(h.users[u]) {
      DeleteUserSound(h, u);
    } else {
      var positions := h.users[u].positions;
      var j: nat :| j < |positions| && positions[j].IsOpen();
      var i := positions[j].marketIndex;
      OpenSlotHasBase(positions, j);
      UsersUpdate(h.users, u, EMPTY_USER, i, LongBase);
      UsersUpdate(h.users, u, EMPTY_USER, i, ShortBase);
      ClosedTotals(EMPTY_USER.positions, i, LongBase);
      ClosedTotals(EMPTY_USER.positions, i, ShortBase);
      assert !AggregatesMatch(h.markets[i], h.users[u := EMPTY_USER], i);
    }
  }

  // ----- Calls on one market

  lemma {:induction false} NoCountNoBase(positions: seq<Position>, index: int)
    requires SlotsTotal(positions, index, OpenCount) <= 0
    ensures SlotsTotal(positions, index, LongBase) == 0 && SlotsTotal(positions, index, ShortBase) == 0
  {
    if positions != [] {
      SlotsTotalSigns(positions[..|positions| - 1], index);
      NoCountNoBase(positions[..|positions| - 1], index);
    }
  }

  lemma {:induction false} NoUsersNoBase(users: seq<User>, index: int)
    requires UsersTotal(users, index, OpenCount) <= 0
    ensures UsersTotal(users, index, LongBase) == 0 && UsersTotal(users, index, ShortBase) == 0
  {
    if users != [] {
      var n := |users| - 1;
      UsersTotalSigns(users[..n], index);
      SlotsTotalSigns(users[n].positions, index);
      NoUsersNoBase(users[..n], index);
      NoCountNoBase(users[n].positions, index);
    }
  }

  lemma InitializeSound(h: House, index: nat, base: u128, quote: u128, period: i64, peg: u128, now: i64,
                        oraclePrice: i128, oracleTwap: i128)
    requires Sound(h) && index < |h.markets|
    requires I.InitializeMarket(h.markets[index], base, quote, period, peg, now, oraclePrice, oracleTwap).Ok?
    ensures var m := I.InitializeMarket(h.markets[index], base, quote, period, peg, now, oraclePrice, oracleTwap).value;
            Sound(h.(markets := h.markets[index := m]))
  {
    var m := I.InitializeMarket(h.markets[index], base, quote, period, peg, now, oraclePrice, oracleTwap).value;
    assert CurveSound(h.markets[index]);
    NoUsersNoBase(h.users, index);
    FloorUnique(base * base, base, base);
  }

  /** A repeg changes the peg and the pool only, and leaves the pool above its floor. */
  lemma RepegSound(m: Market, newPeg: u128, oraclePrice: i128, confidence: u128, valid: bool)
    requires I.Repeg(m, newPeg, oraclePrice, confidence, valid).Ok? && FeesSound(m.amm)
    ensures var m' := I.Repeg(m, newPeg, oraclePrice, confidence, valid).value;
            && m' == m.(amm := m'.amm) && SameCurve(m.amm, m'.amm)
  {
    var (repegged, cost) := I.AdjustPegCost(m, newPeg).value;
    assert I.PayRepeg(repegged, cost) == I.Repeg(m, newPeg, oraclePrice, confidence, valid);
  }

  lemma StepMarketSound(h: House, index: nat, call: Call)
    requires Sound(h) && index < |h.markets| && StepMarket(h, index, call).Ok?
    ensures Sound(StepMarket(h, index, call).value)
  {
    var m := h.markets[index];
    match call
    case InitializeMarket(_, base, quote, period, peg, now, oraclePrice, oracleTwap) =>
      InitializeSound(h, index, base, quote, period, peg, now, oraclePrice, oracleTwap);
    case UpdateFunding(_, oraclePrice, blocked, now) =>
      UpdateFundingRateSound(m, oraclePrice, blocked, now);
      ReplaceAmmSound(h, index, UpdateFundingRate(m, oraclePrice, blocked, now).value.amm);
    case Repeg(_, newPeg, oraclePrice, confidence, valid) =>
      RepegSound(m, newPeg, oraclePrice, confidence, valid);
      ReplaceAmmSound(h, index, I.Repeg(m, newPeg, oraclePrice, confidence, valid).value.amm);
    case WithdrawFees(_, amount) =>
      ReplaceAmmSound(h, index, I.WithdrawFees(m, amount).value.amm);
    case TopUp(_, amount) =>
      ReplaceAmmSound(h, index, I.TopUpFromInsurance(m, amount).value.amm);
    case _ =>
  }

  // ----- Calls on one user

  lemma DepositKeeps(h: House, u: nat, a: I.Accounts, amount: u64)
    requires SoundWith(h, u, a) && I.Deposit(a, amount).Ok?
    ensures SoundWith(h, u, I.Deposit(a, amount).value)
  {
    CollateralKeeps(h, u, a, a.user.collateral + amount);
    SettleKeeps(h, u, a.(user := a.user.(collateral := a.user.collateral + amount)));
  }

  lemma WithdrawKeeps(config: I.Config, h: House, u: nat, a: I.Accounts, amount: u64, available: u64)
    requires SoundWith(h, u, a) && I.Withdraw(config, a, amount, available).Ok?
    ensures SoundWith(h, u, I.Withdraw(config, a, amount, available).value)
  {
    SettleKeeps(h, u, a);
    var settled := I.Settle(a).value;
    CollateralKeeps(h, u, settled, settled.user.collateral - Min(amount, available));
  }

  lemma RewardSound(h: House, liquidator: nat, reward: nat)
    requires Sound(h) && Reward(h, liquidator, reward).Ok?
    ensures Sound(Reward(h, liquidator, reward).value)
  {
    if reward != 0 {
      var user := h.users[liquidator];
      ReplaceUserSound(h, liquidator, user.(collateral := user.collateral + reward));
    }
  }

  lemma LoadedSound(h: House, u: nat)
    requires Sound(h) && u < |h.users|
    ensures SoundWith(h, u, Load(h, u))
  {
    assert Save(h, u, Load(h, u)) == h by {
      assert h.users[u := h.users[u]] == h.users;
    }
  }

  lemma StepUserSound(config: I.Config, h: House, u: nat, call: Call)
    requires Sound(h) && ProperConfig(config) && u < |h.users| && StepUser(config, h, u, call).Ok?
    requires call.DeleteUser? ==> NoOpenPosition(h.users[u])
    ensures Sound(StepUser(config, h, u, call).value)
  {
    LoadedSound(h, u);
    var a := Load(h, u);
    match call
    case DeleteUser(_) => DeleteUserSound(h, u);
    case Deposit(_, amount) => DepositKeeps(h, u, a, amount);
    case Withdraw(_, amount, available) => WithdrawKeeps(config, h, u, a, amount, available);
    case OpenPosition(_, index, direction, quote, limitPrice, inputs) =>
      OpenPositionKeeps(config, h, u, a, index, direction, quote, limitPrice, inputs);
    case ClosePosition(_, index, inputs) => ClosePositionKeeps(h, u, a, index, inputs);
    case Liquidate(_, liquidator, blocked, vault, now) =>
      LiquidateKeeps(config, h, u, a, blocked, vault, now);
      var (after, reward) := I.Liquidate(config, a, blocked, vault, now).value;
      RewardSound(Save(h, u, after), liquidator, reward);
    case SettleFunding(_) => SettleKeeps(h, u, a);
    case _ =>
  }

  // ----- Runs

  /** The conditions under which an event keeps the invariant: a proper close fraction, and no
      deletion of a user who still has a position. */
  predicate Clean(h: House, e: Event) {
    && ProperConfig(e.config)
    && (e.call.DeleteUser? && e.call.user < |h.users| ==> NoOpenPosition(h.users[e.call.user]))
  }

  lemma NextSound(h: House, e: Event)
    requires Sound(h) && Clean(h, e)
    ensures Sound(Next(h, e))
  {
    if Step(e.config, h, e.call).Ok? {
      if e.call.CreateUser? {
        CreateUserSound(h);
      } else if UserOf(e.call).Some? {
        StepUserSound(e.config, h, UserOf(e.call).value, e.call);
      } else {
        StepMarketSound(h, e.call.index, e.call);
      }
    }
  }

  predicate CleanRun(h: House, events: seq<Event>) {
    events == [] ||
    (CleanRun(h, events[..|events| - 1]) && Clean(Run(h, events[..|events| - 1]), events[|events| - 1]))
  }

  lemma GenesisSound()
    ensures Sound(Genesis())
  {
  }

  /** In every state of every run: curves are tight and path independent, aggregates match the users,
      fee pools are above their floors, and no user has two open slots in a market. */
  lemma {:induction false} RunSound(events: seq<Event>)
    requires CleanRun(Genesis(), events)
    ensures Sound(Run(Genesis(), events))
  {
    if events == [] {
      GenesisSound();
    } else {
      var rest := events[..|events| - 1];
      RunSound(rest);
      NextSound(Run(Genesis(), rest), events[|events| - 1]);
    }
  }
}
