/** Lazy funding is eager funding: what a slot is paid when its user happens to act differs from what
    it would be paid at every update by at most one unit an update. */
module LazyFunding {
  import opened Numeric
  import opened State
  import opened Curve
  import opened Trading
  import opened Shapes
  import opened Rounding
  import opened Funding
  import opened FundingRates
  import opened Settling
  import opened ClearingHouse
  import opened Invariants
  import opened Runs
  import I = Instructions

  // ----- One payment

  /** A payment is the exact amount truncated toward zero. */
  lemma PaymentTruncates(delta: int, base: int)
    ensures Abs(0 - delta * base - Payment(delta, base) * PAYMENT_UNIT) <= PAYMENT_UNIT - 1
    ensures delta * base == 0 ==> Payment(delta, base) == 0
    ensures Abs(Payment(delta, base)) * PAYMENT_UNIT <= Abs(delta * base)
  {
    SignedProduct(delta, base);
    var magnitude := Abs(delta) * Abs(base);
    FloorBounds(magnitude, PAYMENT_UNIT);
    FloorAtLeast(magnitude, PAYMENT_UNIT, 0);
  }

  /** Truncating a sum against summing truncations: off by at most one for each term. */
  lemma SettlingAll(exact: int, paid: int, eager: int, updates: nat)
    requires Abs(exact - eager * PAYMENT_UNIT) <= updates * (PAYMENT_UNIT - 1)
    requires Abs(exact - paid * PAYMENT_UNIT) <= PAYMENT_UNIT - 1 && (exact == 0 ==> paid == 0) && Abs(paid) * PAYMENT_UNIT <= Abs(exact)
    ensures Abs(paid - eager) <= updates
  {
    if updates == 0 {
      assert exact == eager * PAYMENT_UNIT;
    }
  }

  // ----- What an instruction does to a slot's rate

  /** The same cumulative rates, market by market. */
  predicate SameRates(before: seq<Market>, after: seq<Market>) {
    && |after| == |before|
    && forall i :: 0 <= i < |before| ==>
         && after[i].amm.cumulativeFundingRateLong == before[i].amm.cumulativeFundingRateLong
         && after[i].amm.cumulativeFundingRateShort == before[i].amm.cumulativeFundingRateShort
  }

  /** In the middle of an instruction on user u: sound, at the rates it began with, settled to them. */
  predicate Tracked(h: House, u: nat, a: I.Accounts) {
    SoundWith(h, u, a) && SameRates(h.markets, a.markets) && UpToDate(h.markets, a.user.positions)
  }

  lemma SettleTracks(h: House, u: nat, a: I.Accounts)
    requires SoundWith(h, u, a) && a.markets == h.markets && I.Settle(a).Ok?
    ensures Tracked(h, u, I.Settle(a).value)
  {
    SettleKeeps(h, u, a);
    SettlingTracks(h.markets, a.user.positions);
  }

  /** Storing a trade that re-bases what it opens and keeps the side of what it keeps. */
  lemma StoreTracks(h: House, u: nat, a: I.Accounts, j: nat, m': Market, p': Position, collateral: u128)
    requires SameRates(h.markets, a.markets) && UpToDate(h.markets, a.user.positions)
    requires j < |a.user.positions| && a.user.positions[j].marketIndex < |a.markets|
    requires var p := a.user.positions[j];
             && SoundTrade(a.markets[p.marketIndex], p, m', p')
             && (p'.IsOpen() ==> p'.lastCumulativeFundingRate == CumulativeRate(m'.amm, p'.baseAssetAmount))
    ensures var a' := I.Store(a, j, m', p', collateral);
            SameRates(h.markets, a'.markets) && UpToDate(h.markets, a'.user.positions)
  {
  }

  lemma IncreaseTracks(h: House, u: nat, a: I.Accounts, j: nat, direction: PositionDirection, quote: u128, now: i64)
    requires Tracked(h, u, a) && Seated(a, j) && I.AddsTo(a.user.positions[j].baseAssetAmount, direction)
    requires I.IncreaseSlot(a, j, direction, quote, now).Ok?
    ensures Tracked(h, u, I.IncreaseSlot(a, j, direction, quote, now).value.0)
  {
    IncreaseKeeps(h, u, a, j, direction, quote, now);
    SlotMarketIsSound(h, u, a, j);
    var p := a.user.positions[j];
    var m := a.markets[p.marketIndex];
    IncreaseSound(direction, quote, m, p, now);
    var (m', p', _) := Increase(direction, quote, m, p, now).value;
    IncreaseRebases(direction, quote, m, p, now);
    StoreTracks(h, u, a, j, m', p', a.user.collateral);
  }

  /** A position that a trade opens starts at the rate of its side; one that it adds to keeps its own. */
  lemma IncreaseRebases(direction: PositionDirection, quote: u128, m: Market, p: Position, now: i64)
    requires TightCurve(m.amm) && 1 <= m.amm.minimumTradeSize && I.AddsTo(p.baseAssetAmount, direction)
    requires Increase(direction, quote, m, p, now).Ok?
    requires p.IsOpen() ==> p.lastCumulativeFundingRate == CumulativeRate(m.amm, p.baseAssetAmount)
    ensures var (m', p', _) := Increase(direction, quote, m, p, now).value;
            p'.IsOpen() ==> p'.lastCumulativeFundingRate == CumulativeRate(m'.amm, p'.baseAssetAmount)
  {
    if quote != 0 {
      IncreaseShape(direction, quote, m, p, now);
      SwapQuoteShape(m.amm, quote, QuoteSwapDirection(direction), now, None);
      AcquiredSign(m.amm, quote, QuoteSwapDirection(direction), now, None);
    }
  }

  lemma ReduceTracks(h: House, u: nat, a: I.Accounts, j: nat, quote: u128, now: i64, mark: Option<u128>)
    requires Tracked(h, u, a) && j < |a.user.positions|
    requires var p := a.user.positions[j];
             && p.marketIndex < |a.markets| && Guarded(quote, a.markets[p.marketIndex], p)
             && I.ReduceSlot(a, j, DirectionToClose(p.baseAssetAmount), quote, now, mark).Ok?
    ensures var direction := DirectionToClose(a.user.positions[j].baseAssetAmount);
            Tracked(h, u, I.ReduceSlot(a, j, direction, quote, now, mark).value.0)
  {
    ReduceKeeps(h, u, a, j, quote, now, mark);
    SlotMarketIsSound(h, u, a, j);
    var p, collateral := a.user.positions[j], a.user.collateral;
    var m, direction := a.markets[p.marketIndex], DirectionToClose(p.baseAssetAmount);
    ReduceSound(quote, collateral, m, p, now, mark);
    NoSignFlip(quote, collateral, m, p, now, mark);
    ReduceShape(direction, quote, collateral, m, p, now, mark);
    var (m', p', collateral', _) := Reduce(direction, quote, collateral, m, p, now, mark).value;
    StoreTracks(h, u, a, j, m', p', collateral');
  }

  lemma CloseTracks(h: House, u: nat, a: I.Accounts, j: nat, now: i64)
    requires Tracked(h, u, a) && j < |a.user.positions| && a.user.positions[j].IsOpen()
    requires I.CloseSlot(a, j, now).Ok?
    ensures var a' := I.CloseSlot(a, j, now).value.0;
            Tracked(h, u, a') && Seated(a', j) && !a'.user.positions[j].IsOpen()
  {
    CloseKeeps(h, u, a, j, now);
    var p, collateral := a.user.positions[j], a.user.collateral;
    CloseSound(collateral, a.markets[p.marketIndex], p, now);
    var (m', p', collateral', _) := Close(collateral, a.markets[p.marketIndex], p, now).value;
    StoreTracks(h, u, a, j, m', p', collateral');
  }

  lemma ReverseTracks(h: House, u: nat, a: I.Accounts, j: nat, direction: PositionDirection, quote: u128, rest: u128,
                      value: u128, size: nat, now: i64)
    requires Tracked(h, u, a) && Seated(a, j) && !a.user.positions[j].IsOpen()
    requires I.Reverse(a, j, direction, quote, rest, value, size, now).Ok?
    ensures Tracked(h, u, I.Reverse(a, j, direction, quote, rest, value, size, now).value.accounts)
  {
    IncreaseTracks(h, u, a, j, direction, rest, now);
  }

  lemma FlipTracks(h: House, u: nat, a: I.Accounts, j: nat, direction: PositionDirection, quote: u128, value: u128, now: i64)
    requires Tracked(h, u, a) && Seated(a, j) && a.user.positions[j].IsOpen()
    requires I.Flip(a, j, direction, quote, value, now).Ok?
    ensures Tracked(h, u, I.Flip(a, j, direction, quote, value, now).value.accounts)
  {
    CloseTracks(h, u, a, j, now);
    var rest, size := FitU128(quote - value).value, Abs(a.user.positions[j].baseAssetAmount);
    var closed := I.CloseSlot(a, j, now).value.0;
    assert I.Flip(a, j, direction, quote, value, now) == I.Reverse(closed, j, direction, quote, rest, value, size, now);
    ReverseTracks(h, u, closed, j, direction, quote, rest, value, size, now);
  }

  lemma TradeAgainstTracks(h: House, u: nat, a: I.Accounts, j: nat, direction: PositionDirection, quote: u128, now: i64)
    requires Tracked(h, u, a) && Seated(a, j) && !I.AddsTo(a.user.positions[j].baseAssetAmount, direction)
    requires I.TradeAgainst(a, j, direction, quote, now).Ok?
    ensures Tracked(h, u, I.TradeAgainst(a, j, direction, quote, now).value.accounts)
  {
    var p := a.user.positions[j];
    var amm := a.markets[p.marketIndex].amm;
    var value := ValueAndPnl(p.baseAssetAmount, p.quoteAssetAmount, amm).value.0;
    var quote' := if I.ShouldRound(amm, quote, value).value then value else quote;
    assert direction == DirectionToClose(p.baseAssetAmount);
    if value > quote' {
      ReduceTracks(h, u, a, j, quote', now, None);
    } else {
      FlipTracks(h, u, a, j, direction, quote', value, now);
    }
  }

  lemma TradeTracks(h: House, u: nat, a: I.Accounts, j: nat, direction: PositionDirection, quote: u128, now: i64)
    requires Tracked(h, u, a) && Seated(a, j) && I.Trade(a, j, direction, quote, now).Ok?
    ensures Tracked(h, u, I.Trade(a, j, direction, quote, now).value.accounts)
  {
    if I.AddsTo(a.user.positions[j].baseAssetAmount, direction) {
      IncreaseTracks(h, u, a, j, direction, quote, now);
    } else {
      TradeAgainstTracks(h, u, a, j, direction, quote, now);
    }
  }

  lemma OpenTradeTracks(h: House, u: nat, a: I.Accounts, index: u64, direction: PositionDirection, quote: u128,
                        inputs: I.TradeInputs)
    requires Tracked(h, u, a) && index < |a.markets| && a.markets[index].initialized
    requires I.OpenTrade(a, index, direction, quote, inputs).Ok?
    ensures Tracked(h, u, I.OpenTrade(a, index, direction, quote, inputs).value.accounts)
  {
    var (user, j) := I.TakeSlot(a.user, index).value;
    TakeSlotKeeps(h, u, a, index);
    var seated := a.(user := user);
    ReadOracleKeeps(h, u, seated, index, inputs.before, inputs.now);
    var read := I.ReadOracle(seated, index, inputs.before, inputs.now).value;
    assert SameRates(h.markets, read.markets);
    TradeTracks(h, u, read, j, direction, quote, inputs.now);
  }

  // ----- Instructions

  /** After an instruction that settled user u: his slots at the rates it began with, whatever its
      last step did to the rates; everyone else's slots as they were. */
  predicate SettledAt(h: House, u: nat, a: I.Accounts) {
    |a.markets| == |h.markets| && UpToDate(h.markets, a.user.positions)
  }

  lemma FinishOpenKeepsSlots(config: I.Config, t: I.Traded, index: nat, direction: PositionDirection,
                             limitPrice: u128, inputs: I.TradeInputs)
    requires index < |t.accounts.markets|
    requires I.FinishOpen(config, t, index, direction, limitPrice, inputs).Ok?
    ensures var a := I.FinishOpen(config, t, index, direction, limitPrice, inputs).value;
            a.user.positions == t.accounts.user.positions && |a.markets| == |t.accounts.markets|
  {
  }

  lemma OpenPositionSettles(config: I.Config, h: House, u: nat, index: u64, direction: PositionDirection,
                            quote: u128, limitPrice: u128, inputs: I.TradeInputs)
    requires Sound(h) && u < |h.users|
    requires I.OpenPosition(config, Load(h, u), index, direction, quote, limitPrice, inputs).Ok?
    ensures SettledAt(h, u, I.OpenPosition(config, Load(h, u), index, direction, quote, limitPrice, inputs).value)
  {
    LoadedSound(h, u);
    SettleTracks(h, u, Load(h, u));
    var settled := I.Settle(Load(h, u)).value;
    OpenTradeTracks(h, u, settled, index, direction, quote, inputs);
    FinishOpenKeepsSlots(config, I.OpenTrade(settled, index, direction, quote, inputs).value, index, direction,
                         limitPrice, inputs);
  }

  lemma ClosePositionSettles(h: House, u: nat, index: u64, inputs: I.TradeInputs)
    requires Sound(h) && u < |h.users| && I.ClosePosition(Load(h, u), index, inputs).Ok?
    ensures SettledAt(h, u, I.ClosePosition(Load(h, u), index, inputs).value)
  {
    LoadedSound(h, u);
    SettleTracks(h, u, Load(h, u));
    var settled := I.Settle(Load(h, u)).value;
    var j := I.FindSlot(settled.user.positions, index, 0).value;
    CloseTracks(h, u, settled, j, inputs.now);
    FinishCloseKeepsSlots(I.CloseSlot(settled, j, inputs.now).value.0, index, inputs);
  }

  lemma FinishCloseKeepsSlots(a: I.Accounts, index: nat, inputs: I.TradeInputs)
    requires index < |a.markets| && I.FinishClose(a, index, inputs).Ok?
    ensures var b := I.FinishClose(a, index, inputs).value;
            b.user.positions == a.user.positions && |b.markets| == |a.markets|
  {
  }

  lemma {:induction false} LiquidateSlotsTrack(h: House, u: nat, a: I.Accounts, k: nat, blocked: set<u64>, now: i64)
    requires Tracked(h, u, a) && k <= |a.user.positions| && I.LiquidateSlots(a, k, blocked, now).Ok?
    ensures Tracked(h, u, I.LiquidateSlots(a, k, blocked, now).value.0)
  {
    if k != 0 {
      LiquidateSlotsTrack(h, u, a, k - 1, blocked, now);
      LiquidateSlotTracks(h, u, I.LiquidateSlots(a, k - 1, blocked, now).value.0, k - 1, blocked, now);
    }
  }

  lemma LiquidateSlotTracks(h: House, u: nat, a: I.Accounts, j: nat, blocked: set<u64>, now: i64)
    requires Tracked(h, u, a) && j < |a.user.positions| && I.LiquidateSlot(a, j, blocked, now).Ok?
    ensures Tracked(h, u, I.LiquidateSlot(a, j, blocked, now).value.0)
  {
    if a.user.positions[j].IsOpen() {
      CloseTracks(h, u, a, j, now);
    }
  }

  lemma TrimSlotTracks(config: I.Config, h: House, u: nat, a: I.Accounts, j: nat, blocked: set<u64>, now: i64)
    requires ProperConfig(config)
    requires Tracked(h, u, a) && j < |a.user.positions| && I.TrimSlot(config, a, j, blocked, now).Ok?
    ensures Tracked(h, u, I.TrimSlot(config, a, j, blocked, now).value.0)
  {
    var p := a.user.positions[j];
    if p.IsOpen() {
      var m := a.markets[p.marketIndex];
      TrimIsGuarded(config, h, u, a, j, blocked, now);
      var toClose := I.PartialValue(config, ValueAndPnl(p.baseAssetAmount, p.quoteAssetAmount, m.amm).value.0).value;
      ReduceTracks(h, u, a, j, toClose, now, Some(MarkPrice(m.amm).value));
    }
  }

  lemma {:induction false} TrimSlotsTrack(config: I.Config, h: House, u: nat, a: I.Accounts, k: nat, blocked: set<u64>, now: i64)
    requires ProperConfig(config)
    requires Tracked(h, u, a) && k <= |a.user.positions| && I.TrimSlots(config, a, k, blocked, now).Ok?
    ensures Tracked(h, u, I.TrimSlots(config, a, k, blocked, now).value.0)
  {
    if k != 0 {
      TrimSlotsTrack(config, h, u, a, k - 1, blocked, now);
      TrimSlotTracks(config, h, u, I.TrimSlots(config, a, k - 1, blocked, now).value.0, k - 1, blocked, now);
    }
  }

  lemma LiquidateSettles(config: I.Config, h: House, u: nat, blocked: set<u64>, vault: u64, now: i64)
    requires ProperConfig(config) && Sound(h) && u < |h.users|
    requires I.Liquidate(config, Load(h, u), blocked, vault, now).Ok?
    ensures SettledAt(h, u, I.Liquidate(config, Load(h, u), blocked, vault, now).value.0)
  {
    LoadedSound(h, u);
    SettleTracks(h, u, Load(h, u));
    var settled := I.Settle(Load(h, u)).value;
    if I.MarginRatio(settled).value.marginRatio <= config.marginRatioMaintenance {
      LiquidateSlotsTrack(h, u, settled, |settled.user.positions|, blocked, now);
    } else {
      TrimSlotsTrack(config, h, u, settled, |settled.user.positions|, blocked, now);
    }
  }

  // ----- Steps

  /** A call that settles user u before it does anything else. */
  predicate SettlesUser(call: Call, u: nat) {
    UserOf(call) == Some(u) && !call.DeleteUser?
  }

  lemma {:induction false} EverySlotSettles(markets: seq<Market>, positions: seq<Position>, j: nat)
    requires SettlePositions(markets, positions).Ok? && j < |positions|
    ensures SettlePosition(markets, positions[j]).Ok?
  {
    var n := |positions| - 1;
    if j < n {
      EverySlotSettles(markets, positions[..n], j);
    }
  }

  /** A liquidator's reward changes no slot. */
  lemma RewardKeepsSlots(h: House, liquidator: nat, reward: nat, u: nat)
    requires u < |h.users| && Reward(h, liquidator, reward).Ok?
    ensures var h' := Reward(h, liquidator, reward).value;
            && h'.markets == h.markets && |h'.users| == |h.users|
            && h'.users[u].positions == h.users[u].positions
  {
  }

  lemma LiquidateStepSettles(config: I.Config, h: House, u: nat, call: Call)
    requires Sound(h) && ProperConfig(config) && u < |h.users| && StepUser(config, h, u, call).Ok?
    requires call.Liquidate?
    ensures SettlePositions(h.markets, h.users[u].positions).Ok?
    ensures var h' := StepUser(config, h, u, call).value;
            && |h'.markets| == |h.markets| && |h'.users| == |h.users|
            && UpToDate(h.markets, h'.users[u].positions)
  {
    LiquidateSettles(config, h, u, call.blockedMarkets, call.vault, call.now);
    var (a, reward) := I.Liquidate(config, Load(h, u), call.blockedMarkets, call.vault, call.now).value;
    RewardKeepsSlots(Save(h, u, a), call.liquidator, reward, u);
  }

  lemma TradeStepSettles(config: I.Config, h: House, u: nat, call: Call)
    requires Sound(h) && ProperConfig(config) && u < |h.users| && StepUser(config, h, u, call).Ok?
    requires call.OpenPosition? || call.ClosePosition?
    ensures SettlePositions(h.markets, h.users[u].positions).Ok?
    ensures var h' := StepUser(config, h, u, call).value;
            && |h'.markets| == |h.markets| && |h'.users| == |h.users|
            && UpToDate(h.markets, h'.users[u].positions)
  {
    if call.OpenPosition? {
      OpenPositionSettles(config, h, u, call.index, call.direction, call.quote, call.limitPrice, call.inputs);
    } else {
      ClosePositionSettles(h, u, call.index, call.inputs);
    }
  }

  /** A user's own call leaves his slots settled to the rates it began with. */
  lemma StepSettles(config: I.Config, h: House, u: nat, call: Call)
    requires Sound(h) && ProperConfig(config) && u < |h.users| && StepUser(config, h, u, call).Ok?
    requires SettlesUser(call, u)
    ensures SettlePositions(h.markets, h.users[u].positions).Ok?
    ensures var h' := StepUser(config, h, u, call).value;
            && |h'.markets| == |h.markets| && |h'.users| == |h.users|
            && UpToDate(h.markets, h'.users[u].positions)
  {
    if call.OpenPosition? || call.ClosePosition? {
      TradeStepSettles(config, h, u, call);
    } else if call.Liquidate? {
      LiquidateStepSettles(config, h, u, call);
    } else {
      SettlingTracks(h.markets, h.users[u].positions);
    }
  }

  /** A call on a market leaves every user alone. */
  lemma StepMarketLeavesUsers(h: House, index: nat, call: Call)
    requires index < |h.markets| && StepMarket(h, index, call).Ok?
    ensures var h' := StepMarket(h, index, call).value;
            h'.users == h.users && |h'.markets| == |h.markets|
  {
  }

  lemma StepUserLeavesOthers(config: I.Config, h: House, v: nat, call: Call, u: nat)
    requires u < |h.users| && v < |h.users| && v != u && StepUser(config, h, v, call).Ok?
    ensures var h' := StepUser(config, h, v, call).value;
            |h'.users| == |h.users| && h'.users[u].positions == h.users[u].positions
  {
  }

  /** A call on someone else's account, or on a market, leaves a user's slots alone. */
  lemma StepLeavesOthers(config: I.Config, h: House, u: nat, call: Call)
    requires u < |h.users| && Step(config, h, call).Ok? && UserOf(call) != Some(u)
    requires Sound(h)
    ensures var h' := Step(config, h, call).value;
            && |h'.users| >= |h.users| && h'.users[u].positions == h.users[u].positions
            && (UserOf(call).None? ==> |h'.markets| == |h.markets|)
  {
    if !call.CreateUser? {
      if UserOf(call).Some? {
        StepUserLeavesOthers(config, h, UserOf(call).value, call, u);
      } else {
        StepMarketLeavesUsers(h, call.index, call);
      }
    }
  }

  // ----- The ledger of one slot

  /** What a slot was paid, what it would have been paid at every update on the base it then held,
      and the updates counted; the last two also since it was last settled. */
  datatype Ledger = Ledger(settled: int, eager: int, updates: nat, eagerSince: int, updatesSince: nat)

  /** The slot of a user, flat for a user who does not exist. */
  function SlotOf(h: House, u: nat, j: nat): Position {
    if u < |h.users| && j < |h.users[u].positions| then h.users[u].positions[j] else EMPTY_POSITION
  }

  /** By how much the rate of a slot's side changed between two states. */
  function RateChange(h: House, h': House, p: Position): int {
    if p.IsOpen() && p.marketIndex < |h.markets| && p.marketIndex < |h'.markets|
    then CumulativeRate(h'.markets[p.marketIndex].amm, p.baseAssetAmount)
         - CumulativeRate(h.markets[p.marketIndex].amm, p.baseAssetAmount)
    else 0
  }

  /** What settling a slot now would pay it. */
  function Pending(h: House, p: Position): int {
    if p.IsOpen() && p.marketIndex < |h.markets|
    then CumulativeRate(h.markets[p.marketIndex].amm, p.baseAssetAmount) - p.lastCumulativeFundingRate
    else 0
  }

  /** What the settlement at the start of a user's call gives a slot. */
  function Settlement(h: House, p: Position): int {
    match SettlePosition(h.markets, p)
    case Ok((_, payment)) => payment
    case Err(_) => 0
  }

  lemma SettlementIsPending(h: House, p: Position)
    requires SettlePosition(h.markets, p).Ok?
    ensures Settlement(h, p) == Payment(Pending(h, p), p.baseAssetAmount)
  {
    if p.IsOpen() {
      var delta := Pending(h, p);
      if delta != 0 {
        FundingPaymentExact(delta, p.baseAssetAmount);
      } else {
        PaymentTruncates(delta, p.baseAssetAmount);
      }
    }
  }

  /** The ledger after a call: a settlement by the slot's user pays what is pending; an update of the
      rate pays, eagerly, on the base held when it happens, which is the base after the call. */
  function Post(l: Ledger, h: House, e: Event, u: nat, j: nat): Ledger {
    match Step(e.config, h, e.call)
    case Err(_) => l
    case Ok(h') =>
      var p, p' := SlotOf(h, u, j), SlotOf(h', u, j);
      var settles := SettlesUser(e.call, u);
      var delta := RateChange(h, h', p');
      var due := Payment(delta, p'.baseAssetAmount);
      var update := if delta != 0 then 1 else 0;
      Ledger(l.settled + (if settles then Settlement(h, p) else 0),
             l.eager + due,
             l.updates + update,
             (if settles then 0 else l.eagerSince) + due,
             (if settles then 0 else l.updatesSince) + update)
  }

  function LedgerOf(events: seq<Event>, u: nat, j: nat): Ledger {
    if events == [] then Ledger(0, 0, 0, 0, 0) else
      var rest := events[..|events| - 1];
      Post(LedgerOf(rest, u, j), Run(Genesis(), rest), events[|events| - 1], u, j)
  }

  /** The ledger is right about what is pending on a base: what was settled is within a unit an update
      of what was due up to the last settlement, and what is pending, exactly, within a unit an update
      of what was due since. */
  predicate BalancesAt(l: Ledger, pending: int, base: int) {
    && Abs(l.settled - (l.eager - l.eagerSince)) <= l.updates - l.updatesSince
    && Abs(0 - pending * base - l.eagerSince * PAYMENT_UNIT) <= l.updatesSince * (PAYMENT_UNIT - 1)
  }

  predicate Balances(h: House, l: Ledger, u: nat, j: nat) {
    BalancesAt(l, Pending(h, SlotOf(h, u, j)), SlotOf(h, u, j).baseAssetAmount)
  }

  /** An update between settlements adds its own truncation to the error. */
  lemma UpdateBalances(pending: int, delta: int, base: int, eager: int, updates: nat)
    requires Abs(0 - pending * base - eager * PAYMENT_UNIT) <= updates * (PAYMENT_UNIT - 1)
    ensures var due := Payment(delta, base);
            var more := updates + (if delta != 0 then 1 else 0);
            Abs(0 - (pending + delta) * base - (eager + due) * PAYMENT_UNIT) <= more * (PAYMENT_UNIT - 1)
  {
    PaymentTruncates(delta, base);
    assert (pending + delta) * base == pending * base + delta * base;
    if delta == 0 {
      assert delta * base == 0;
    }
  }

  /** A settlement closes the books on what was pending. */
  lemma SettlementBalances(pending: int, base: int, eager: int, updates: nat)
    requires Abs(0 - pending * base - eager * PAYMENT_UNIT) <= updates * (PAYMENT_UNIT - 1)
    ensures Abs(Payment(pending, base) - eager) <= updates
  {
    PaymentTruncates(pending, base);
    SettlingAll(0 - pending * base, Payment(pending, base), eager, updates);
  }

  /** After a call by its user, all that is pending on a slot is the call's own update. */
  lemma OwnCallRebases(h: House, e: Event, u: nat, j: nat)
    requires Sound(h) && Clean(h, e) && j < I.SLOTS
    requires Step(e.config, h, e.call).Ok? && SettlesUser(e.call, u)
    ensures var h' := Next(h, e);
            Pending(h', SlotOf(h', u, j)) == RateChange(h, h', SlotOf(h', u, j))
  {
    var h' := Next(h, e);
    NextSound(h, e);
    StepSettles(e.config, h, u, e.call);
    assert UserSound(h'.users[u]);
    assert SlotUpToDate(h.markets, SlotOf(h', u, j));
  }

  lemma OwnCallSettles(h: House, e: Event, u: nat, j: nat)
    requires Sound(h) && Clean(h, e) && j < I.SLOTS
    requires Step(e.config, h, e.call).Ok? && SettlesUser(e.call, u)
    ensures Settlement(h, SlotOf(h, u, j)) == Payment(Pending(h, SlotOf(h, u, j)), SlotOf(h, u, j).baseAssetAmount)
  {
    StepSettles(e.config, h, u, e.call);
    EverySlotSettles(h.markets, h.users[u].positions, j);
    SettlementIsPending(h, SlotOf(h, u, j));
  }

  /** A call by the slot's own user. */
  lemma OwnCallBalances(h: House, l: Ledger, e: Event, u: nat, j: nat)
    requires Sound(h) && Clean(h, e) && j < I.SLOTS && Balances(h, l, u, j)
    requires Step(e.config, h, e.call).Ok? && SettlesUser(e.call, u)
    ensures Balances(Next(h, e), Post(l, h, e, u, j), u, j)
  {
    var h' := Next(h, e);
    var p, p' := SlotOf(h, u, j), SlotOf(h', u, j);
    OwnCallRebases(h, e, u, j);
    OwnCallSettles(h, e, u, j);
    SettledLedger(l, Pending(h, p), p.baseAssetAmount, RateChange(h, h', p'), p'.baseAssetAmount);
  }

  /** The ledger arithmetic of a call that settles what is pending and then updates the rate. */
  lemma SettledLedger(l: Ledger, pending: int, base: int, delta: int, base': int)
    requires Abs(l.settled - (l.eager - l.eagerSince)) <= l.updates - l.updatesSince
    requires Abs(0 - pending * base - l.eagerSince * PAYMENT_UNIT) <= l.updatesSince * (PAYMENT_UNIT - 1)
    ensures Abs(l.settled + Payment(pending, base) - l.eager) <= l.updates
    ensures Abs(0 - delta * base' - Payment(delta, base') * PAYMENT_UNIT) <= (if delta != 0 then 1 else 0) * (PAYMENT_UNIT - 1)
  {
    SettlementBalances(pending, base, l.eagerSince, l.updatesSince);
    UpdateBalances(0, delta, base', 0, 0);
  }

  /** Any other call. */
  lemma OtherCallBalances(h: House, l: Ledger, e: Event, u: nat, j: nat)
    requires Sound(h) && Clean(h, e) && j < I.SLOTS && Balances(h, l, u, j)
    requires Step(e.config, h, e.call).Ok? && UserOf(e.call) != Some(u) && u < |h.users|
    ensures Balances(Next(h, e), Post(l, h, e, u, j), u, j)
  {
    var p, h' := SlotOf(h, u, j), Next(h, e);
    var p' := SlotOf(h', u, j);
    OtherCallPending(h, e, u, j);
    OtherCallPosts(h, l, e, u, j);
    UpdatedLedger(l, Pending(h, p), p.baseAssetAmount, RateChange(h, h', p),
                  Post(l, h, e, u, j), Pending(h', p'), p'.baseAssetAmount);
  }

  lemma OtherCallPosts(h: House, l: Ledger, e: Event, u: nat, j: nat)
    requires Sound(h) && Clean(h, e) && j < I.SLOTS && u < |h.users|
    requires Step(e.config, h, e.call).Ok? && UserOf(e.call) != Some(u)
    ensures var p := SlotOf(h, u, j);
            Post(l, h, e, u, j) == Updated(l, RateChange(h, Next(h, e), p), p.baseAssetAmount)
  {
    OtherCallPending(h, e, u, j);
  }

  /** A call that leaves a slot alone adds its update to what is pending on it. */
  lemma OtherCallPending(h: House, e: Event, u: nat, j: nat)
    requires Sound(h) && Clean(h, e) && j < I.SLOTS && u < |h.users|
    requires Step(e.config, h, e.call).Ok? && UserOf(e.call) != Some(u)
    ensures var h' := Next(h, e);
            var p := SlotOf(h, u, j);
            SlotOf(h', u, j) == p && Pending(h', p) == Pending(h, p) + RateChange(h, h', p)
  {
    NextSound(h, e);
    StepLeavesOthers(e.config, h, u, e.call);
    assert UserSound(h.users[u]);
  }

  /** A ledger after an update of the rate. */
  function Updated(l: Ledger, delta: int, base: int): Ledger {
    var due, update := Payment(delta, base), if delta != 0 then 1 else 0;
    Ledger(l.settled, l.eager + due, l.updates + update, l.eagerSince + due, l.updatesSince + update)
  }

  /** The ledger arithmetic of a call that only updates the rate. */
  lemma UpdatedLedger(l: Ledger, pending: int, base: int, delta: int, l': Ledger, pending': int, base': int)
    requires BalancesAt(l, pending, base)
    requires l' == Updated(l, delta, base) && pending' == pending + delta && base' == base
    ensures BalancesAt(l', pending', base')
  {
    UpdateBalances(pending, delta, base, l.eagerSince, l.updatesSince);
  }

  lemma PostBalances(h: House, l: Ledger, e: Event, u: nat, j: nat)
    requires Sound(h) && Clean(h, e) && j < I.SLOTS && Balances(h, l, u, j)
    ensures Balances(Next(h, e), Post(l, h, e, u, j), u, j)
  {
    if Step(e.config, h, e.call).Ok? {
      if SettlesUser(e.call, u) {
        OwnCallBalances(h, l, e, u, j);
      } else if u < |h.users| && !(e.call.DeleteUser? && e.call.user == u) {
        OtherCallBalances(h, l, e, u, j);
      } else {
        ClosedSlotBalances(h, l, e, u, j);
      }
    }
  }

  /** A user who is deleted, is created or does not exist has flat slots before and after. */
  lemma ClosedSlotBalances(h: House, l: Ledger, e: Event, u: nat, j: nat)
    requires Sound(h) && Clean(h, e) && j < I.SLOTS && Balances(h, l, u, j)
    requires Step(e.config, h, e.call).Ok? && !SettlesUser(e.call, u)
    requires |h.users| <= u || (e.call.DeleteUser? && e.call.user == u)
    ensures Balances(Next(h, e), Post(l, h, e, u, j), u, j)
  {
    var h' := Next(h, e);
    assert !SlotOf(h, u, j).IsOpen();
    NewSlotIsFlat(h, e, u, j);
  }

  lemma NewSlotIsFlat(h: House, e: Event, u: nat, j: nat)
    requires Step(e.config, h, e.call).Ok?
    requires |h.users| <= u || (e.call.DeleteUser? && e.call.user == u && u < |h.users|)
    ensures !SlotOf(Next(h, e), u, j).IsOpen()
  {
  }

  /** Lazy funding equals eager funding. In every state of every run, for every slot: all it was
      settled plus what it would be settled now differs from the sum of the payments it was due at
      each update, on the base it then held, by at most one unit for each update. */
  lemma {:induction false} LazyIsEager(events: seq<Event>, u: nat, j: nat)
    requires CleanRun(Genesis(), events) && j < I.SLOTS
    ensures var h, l := Run(Genesis(), events), LedgerOf(events, u, j);
            && Balances(h, l, u, j)
            && Abs(l.settled + Payment(Pending(h, SlotOf(h, u, j)), SlotOf(h, u, j).baseAssetAmount) - l.eager) <= l.updates
  {
    LedgerBalances(events, u, j);
    var h, l := Run(Genesis(), events), LedgerOf(events, u, j);
    var p := SlotOf(h, u, j);
    SettlementBalances(Pending(h, p), p.baseAssetAmount, l.eagerSince, l.updatesSince);
  }

  lemma {:induction false} LedgerBalances(events: seq<Event>, u: nat, j: nat)
    requires CleanRun(Genesis(), events) && j < I.SLOTS
    ensures Balances(Run(Genesis(), events), LedgerOf(events, u, j), u, j)
  {
    if events != [] {
      var rest := events[..|events| - 1];
      LedgerBalances(rest, u, j);
      RunSound(rest);
      PostBalances(Run(Genesis(), rest), LedgerOf(rest, u, j), events[|events| - 1], u, j);
    }
  }
}
