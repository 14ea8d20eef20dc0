/** The instructions of the program in place, over the accounts they load. */
module Handlers {
  import opened Numeric
  import opened State
  import opened Curve
  import opened Accounts
  import FundingController
  import Tr = Trading
  import F = Funding
  import I = Instructions

  function Amms(markets: seq<MarketAccount>): set<AmmAccount> {
    set m | m in markets :: m.amm
  }

  /** The values of the accounts an instruction loads. */
  function Load(markets: seq<MarketAccount>, user: UserAccount): I.Accounts
    reads markets, Amms(markets), user, user.positions
  {
    I.Accounts(States(markets), user.State())
  }

  // ----- What changing one market and one slot does to the values

  /** Only market i and slot j differ from the accounts before. */
  ghost predicate OnlyChanged(before: I.Accounts, markets: seq<MarketAccount>, i: nat, user: UserAccount, j: nat)
    reads markets, Amms(markets), user, user.positions
  {
    && |before.markets| == |markets| && |before.user.positions| == |user.positions|
    && i < |markets| && j < |user.positions| && before.user.positions[j].marketIndex == i
    && (forall k :: 0 <= k < |markets| && k != i ==> markets[k].State() == before.markets[k])
    && (forall k :: 0 <= k < |user.positions| && k != j ==> user.positions[k].State() == before.user.positions[k])
  }

  lemma ChangeIsStore(before: I.Accounts, markets: seq<MarketAccount>, i: nat, user: UserAccount, j: nat)
    requires OnlyChanged(before, markets, i, user, j)
    ensures Load(markets, user) == I.Store(before, j, markets[i].State(), user.positions[j].State(), user.collateral)
  {
    assert States(markets) == before.markets[i := markets[i].State()];
    assert user.Slots() == before.user.positions[j := user.positions[j].State()];
  }

  // ----- One slot

  method IncreaseAt(markets: seq<MarketAccount>, user: UserAccount, j: nat, direction: PositionDirection, quote: u128, now: i64)
    returns (r: Result<i128>)
    requires Distinct(markets) && user.Valid() && j < |user.positions|
    modifies markets, Amms(markets), user.positions[j]
    ensures match I.IncreaseSlot(old(Load(markets, user)), j, direction, quote, now)
            case Ok((a, acquired)) => r == Ok(acquired) && Load(markets, user) == a
            case Err(e) => r == Err(e)
  {
    var position := user.positions[j];
    if position.marketIndex >= |markets| {
      return Err(AccountNotFound);
    }
    ghost var before := Load(markets, user);
    var i := position.marketIndex;
    r := Increase(direction, quote, markets[i], position, now);
    ChangeIsStore(before, markets, i, user, j);
  }

  method ReduceAt(markets: seq<MarketAccount>, user: UserAccount, j: nat, direction: PositionDirection, quote: u128,
                  now: i64, mark: Option<u128>)
    returns (r: Result<i128>)
    requires Distinct(markets) && user.Valid() && j < |user.positions|
    modifies markets, Amms(markets), user, user.positions[j]
    ensures match I.ReduceSlot(old(Load(markets, user)), j, direction, quote, now, mark)
            case Ok((a, swapped)) => r == Ok(swapped) && Load(markets, user) == a
            case Err(e) => r == Err(e)
  {
    var position := user.positions[j];
    if position.marketIndex >= |markets| {
      return Err(AccountNotFound);
    }
    ghost var before := Load(markets, user);
    var i := position.marketIndex;
    r := Reduce(direction, quote, user, markets[i], position, now, mark);
    ChangeIsStore(before, markets, i, user, j);
  }

  method CloseAt(markets: seq<MarketAccount>, user: UserAccount, j: nat, now: i64) returns (r: Result<(u128, i128)>)
    requires Distinct(markets) && user.Valid() && j < |user.positions|
    modifies markets, Amms(markets), user, user.positions[j]
    ensures match I.CloseSlot(old(Load(markets, user)), j, now)
            case Ok((a, value)) => r == Ok((value, old(user.positions[j].baseAssetAmount))) && Load(markets, user) == a
            case Err(e) => r == Err(e)
  {
    var position := user.positions[j];
    if position.marketIndex >= |markets| {
      return Err(AccountNotFound);
    }
    ghost var before := Load(markets, user);
    var i := position.marketIndex;
    r := Close(user, markets[i], position, now);
    ChangeIsStore(before, markets, i, user, j);
  }

  // ----- math/margin.rs

  lemma {:induction false} MarginFails(markets: seq<Market>, positions: seq<Position>, j: nat)
    requires j <= |positions| && I.MarginTotals(markets, positions[..j]).Err?
    ensures I.MarginTotals(markets, positions) == I.MarginTotals(markets, positions[..j])
    decreases |positions|
  {
    if j < |positions| {
      var n := |positions| - 1;
      assert positions[..n][..j] == positions[..j];
      MarginFails(markets, positions[..n], j);
    } else {
      assert positions[..j] == positions;
    }
  }

  /** One turn of the margin loop. */
  method AddToMargin(markets: seq<MarketAccount>, position: PositionAccount, value: u128, pnl: i128)
    returns (r: Result<(u128, i128)>)
    ensures forall done: seq<Position> :: I.MarginTotals(States(markets), done) == Ok((value, pnl)) ==>
              I.MarginTotals(States(markets), done + [position.State()]) == r
  {
    if position.baseAssetAmount == 0 {
      r := Ok((value, pnl));
    } else if position.marketIndex >= |markets| {
      r := Err(AccountNotFound);
    } else {
      var valued := Tr.ValueAndPnl(position.baseAssetAmount, position.quoteAssetAmount,
                                   markets[position.marketIndex].amm.State());
      r := AddValues(value, pnl, valued);
    }
    forall done: seq<Position> | I.MarginTotals(States(markets), done) == Ok((value, pnl))
      ensures I.MarginTotals(States(markets), done + [position.State()]) == r
    {
      assert (done + [position.State()])[..|done|] == done;
    }
  }

  function AddValues(value: u128, pnl: i128, valued: Result<(u128, i128)>): Result<(u128, i128)> {
    var (slotValue, slotPnl) :- valued;
    var value' :- FitU128(value + slotValue);
    var pnl' :- FitI128(pnl + slotPnl);
    Ok((value', pnl'))
  }

  /** The loop over the slots: base value and unrealised pnl of the open ones. */
  method SumMargin(markets: seq<MarketAccount>, user: UserAccount) returns (r: Result<(u128, i128)>)
    ensures r == I.MarginTotals(States(markets), user.Slots())
  {
    ghost var states, slots := States(markets), user.Slots();
    var baseAssetValue: u128 := 0;
    var unrealizedPnl: i128 := 0;
    var j := 0;
    while j < |user.positions|
      invariant j <= |user.positions|
      invariant I.MarginTotals(states, slots[..j]) == Ok((baseAssetValue, unrealizedPnl))
    {
      var added := AddToMargin(markets, user.positions[j], baseAssetValue, unrealizedPnl);
      assert slots[..j + 1] == slots[..j] + [user.positions[j].State()];
      if added.Err? {
        MarginFails(states, slots, j + 1);
        return added;
      }
      baseAssetValue, unrealizedPnl := added.value.0, added.value.1;
      j := j + 1;
    }
    assert slots[..j] == slots;
    r := Ok((baseAssetValue, unrealizedPnl));
  }

  method CalculateMarginRatio(markets: seq<MarketAccount>, user: UserAccount) returns (r: Result<I.Margin>)
    ensures r == I.MarginRatio(Load(markets, user))
  {
    var totals :- SumMargin(markets, user);
    var (baseAssetValue, unrealizedPnl) := totals;
    if baseAssetValue == 0 {
      return Ok(I.Margin(I.U128_MAX, unrealizedPnl, baseAssetValue, I.U128_MAX));
    }
    var total :- Tr.UpdatedCollateral(user.collateral, unrealizedPnl);
    var scaled :- FitU128(total * MARGIN_PRECISION);
    r := Ok(I.Margin(total, unrealizedPnl, baseAssetValue, DivU(scaled, baseAssetValue).value));
  }

  // ----- Slots

  method FindSlot(user: UserAccount, index: u64) returns (r: Option<nat>)
    ensures r == I.FindSlot(user.Slots(), index, 0)
  {
    var j := 0;
    while j < |user.positions|
      invariant j <= |user.positions|
      invariant I.FindSlot(user.Slots(), index, 0) == I.FindSlot(user.Slots(), index, j)
    {
      if user.positions[j].marketIndex == index && user.positions[j].baseAssetAmount != 0 {
        return Some(j);
      }
      j := j + 1;
    }
    r := None;
  }

  method FreeSlot(user: UserAccount) returns (r: Option<nat>)
    ensures r == I.FreeSlot(user.Slots(), 0)
  {
    var j := 0;
    while j < |user.positions|
      invariant j <= |user.positions|
      invariant I.FreeSlot(user.Slots(), 0) == I.FreeSlot(user.Slots(), j)
    {
      if user.positions[j].baseAssetAmount == 0 {
        return Some(j);
      }
      j := j + 1;
    }
    r := None;
  }

  method TakeSlot(user: UserAccount, index: u64) returns (r: Result<nat>)
    requires user.Valid()
    modifies user.positions
    ensures match I.TakeSlot(old(user.State()), index)
            case Ok((u, j)) => r == Ok(j) && user.State() == u
            case Err(e) => r == Err(e)
  {
    var found := FindSlot(user, index);
    if found.Some? {
      return Ok(found.value);
    }
    var free := FreeSlot(user);
    if free.None? {
      return Err(MaxNumberOfPositions);
    }
    ghost var slots := user.Slots();
    var position := user.positions[free.value];
    position.marketIndex := index;
    position.baseAssetAmount := 0;
    position.quoteAssetAmount := 0;
    position.lastCumulativeFundingRate := 0;
    position.lastFundingRateTs := 0;
    assert user.Slots() == slots[free.value := Position(index, 0, 0, 0, 0)];
    r := Ok(free.value);
  }

  // ----- open_position

  /** What a trade did: the quote amount it used, the base amount it moved, and whether it may have
      increased the user's risk. */
  datatype Fill = Fill(quote: u128, base: u128, riskIncreasing: bool)

  method Reverse(markets: seq<MarketAccount>, user: UserAccount, j: nat, direction: PositionDirection, quote: u128,
                 rest: u128, value: u128, size: nat, now: i64)
    returns (r: Result<Fill>)
    requires Distinct(markets) && user.Valid() && j < |user.positions|
    modifies markets, Amms(markets), user.positions[j]
    ensures match I.Reverse(old(Load(markets, user)), j, direction, quote, rest, value, size, now)
            case Ok(t) => r == Ok(Fill(t.quote, t.base, t.riskIncreasing)) && Load(markets, user) == t.accounts
            case Err(e) => r == Err(e)
  {
    var acquired :- IncreaseAt(markets, user, j, direction, rest, now);
    var base :- FitU128(size + Abs(acquired));
    r := Ok(Fill(quote, base, rest >= value));
  }

  method Flip(markets: seq<MarketAccount>, user: UserAccount, j: nat, direction: PositionDirection, quote: u128,
              value: u128, now: i64)
    returns (r: Result<Fill>)
    requires Distinct(markets) && user.Valid() && j < |user.positions|
    modifies markets, Amms(markets), user, user.positions[j]
    ensures match I.Flip(old(Load(markets, user)), j, direction, quote, value, now)
            case Ok(t) => r == Ok(Fill(t.quote, t.base, t.riskIncreasing)) && Load(markets, user) == t.accounts
            case Err(e) => r == Err(e)
  {
    var rest :- FitU128(quote - value);
    var closed :- CloseAt(markets, user, j, now);
    r := Reverse(markets, user, j, direction, quote, rest, value, Abs(closed.1), now);
  }

  method TradeAgainst(markets: seq<MarketAccount>, user: UserAccount, j: nat, direction: PositionDirection, quote: u128,
                      now: i64)
    returns (r: Result<Fill>)
    requires Distinct(markets) && user.Valid() && j < |user.positions|
    requires user.positions[j].marketIndex < |markets|
    modifies markets, Amms(markets), user, user.positions[j]
    ensures match I.TradeAgainst(old(Load(markets, user)), j, direction, quote, now)
            case Ok(t) => r == Ok(Fill(t.quote, t.base, t.riskIncreasing)) && Load(markets, user) == t.accounts
            case Err(e) => r == Err(e)
  {
    var position := user.positions[j];
    var amm := markets[position.marketIndex].amm;
    var valued :- Tr.ValueAndPnl(position.baseAssetAmount, position.quoteAssetAmount, amm.State());
    var round :- I.ShouldRound(amm.State(), quote, valued.0);
    var quoteUsed := if round then valued.0 else quote;
    if valued.0 > quoteUsed {
      var swapped :- ReduceAt(markets, user, j, direction, quoteUsed, now, None);
      return Ok(Fill(quoteUsed, Abs(swapped), false));
    }
    r := Flip(markets, user, j, direction, quoteUsed, valued.0, now);
  }

  method Trade(markets: seq<MarketAccount>, user: UserAccount, j: nat, direction: PositionDirection, quote: u128, now: i64)
    returns (r: Result<Fill>)
    requires Distinct(markets) && user.Valid() && j < |user.positions|
    requires user.positions[j].marketIndex < |markets|
    modifies markets, Amms(markets), user, user.positions[j]
    ensures match I.Trade(old(Load(markets, user)), j, direction, quote, now)
            case Ok(t) => r == Ok(Fill(t.quote, t.base, t.riskIncreasing)) && Load(markets, user) == t.accounts
            case Err(e) => r == Err(e)
  {
    var base := user.positions[j].baseAssetAmount;
    if base == 0 || (base > 0 && direction.Long?) || (base < 0 && direction.Short?) {
      var acquired :- IncreaseAt(markets, user, j, direction, quote, now);
      return Ok(Fill(quote, Abs(acquired), true));
    }
    r := TradeAgainst(markets, user, j, direction, quote, now);
  }

  // ----- Changes to one market maker

  lemma AmmIsStored(before: I.Accounts, markets: seq<MarketAccount>, i: nat, user: UserAccount)
    requires |before.markets| == |markets| && i < |markets|
    requires forall k :: 0 <= k < |markets| && k != i ==> markets[k].State() == before.markets[k]
    ensures States(markets) == before.markets[i := markets[i].State()]
  {
  }

  method ReadOracle(markets: seq<MarketAccount>, user: UserAccount, i: nat, reading: I.OracleReading, now: i64)
    returns (r: Result<()>)
    requires Distinct(markets) && i < |markets|
    modifies markets[i].amm
    ensures match I.ReadOracle(old(Load(markets, user)), i, reading, now)
            case Ok(a) => r == Ok(()) && Load(markets, user) == a
            case Err(e) => r == Err(e)
  {
    ghost var before := Load(markets, user);
    if reading.valid {
      var _ :- markets[i].amm.UpdateOracleTwap(now, reading.price);
    }
    AmmIsStored(before, markets, i, user);
    r := Ok(());
  }

  /** The market's share of a fee goes to both of its counters. */
  method CollectFee(amm: AmmAccount, feeToMarket: u128) returns (r: Result<()>)
    modifies amm
    ensures var a := old(amm.State());
            match FitU128(a.totalFee + feeToMarket)
            case Err(e) => r == Err(e)
            case Ok(totalFee) =>
              match FitU128(a.totalFeeMinusDistributions + feeToMarket)
              case Err(e) => r == Err(e)
              case Ok(pool) =>
                r == Ok(()) && amm.State() == a.(totalFee := totalFee, totalFeeMinusDistributions := pool)
  {
    amm.totalFee :- FitU128(amm.totalFee + feeToMarket);
    amm.totalFeeMinusDistributions :- FitU128(amm.totalFeeMinusDistributions + feeToMarket);
    r := Ok(());
  }

  method ChargeFee(markets: seq<MarketAccount>, user: UserAccount, i: nat, userFee: u128, feeToMarket: u128)
    returns (r: Result<()>)
    requires Distinct(markets) && i < |markets|
    modifies markets[i].amm, user
    ensures match I.ChargeFee(old(Load(markets, user)), i, userFee, feeToMarket)
            case Ok(a) => r == Ok(()) && Load(markets, user) == a
            case Err(e) => r == Err(e)
  {
    ghost var before := Load(markets, user);
    var _ :- CollectFee(markets[i].amm, feeToMarket);
    user.collateral := Max(user.collateral - userFee, 0);
    AmmIsStored(before, markets, i, user);
    r := Ok(());
  }

  method FundMarket(markets: seq<MarketAccount>, user: UserAccount, i: nat, oraclePrice: i128, blocked: bool, now: i64)
    returns (r: Result<()>)
    requires Distinct(markets) && i < |markets|
    modifies markets[i].amm
    ensures match I.FundMarket(old(Load(markets, user)), i, oraclePrice, blocked, now)
            case Ok(a) => r == Ok(()) && Load(markets, user) == a
            case Err(e) => r == Err(e)
  {
    ghost var before := Load(markets, user);
    var _ :- FundingController.UpdateFundingRate(markets[i], oraclePrice, blocked, now);
    AmmIsStored(before, markets, i, user);
    r := Ok(());
  }

  // ----- open_position and close_position

  method Settle(markets: seq<MarketAccount>, user: UserAccount) returns (r: Result<()>)
    requires user.Valid()
    modifies user, user.positions
    ensures match I.Settle(old(Load(markets, user)))
            case Ok(a) => r == Ok(()) && Load(markets, user) == a
            case Err(e) => r == Err(e)
  {
    ghost var states := States(markets);
    r := FundingController.SettleFundingPayment(user, markets);
    assert States(markets) == states;
  }

  method OpenTrade(markets: seq<MarketAccount>, user: UserAccount, index: u64, direction: PositionDirection, quote: u128,
                   inputs: I.TradeInputs)
    returns (r: Result<Fill>)
    requires Distinct(markets) && user.Valid() && index < |markets|
    modifies markets, Amms(markets), user, user.positions
    ensures match I.OpenTrade(old(Load(markets, user)), index, direction, quote, inputs)
            case Ok(t) => r == Ok(Fill(t.quote, t.base, t.riskIncreasing)) && Load(markets, user) == t.accounts
            case Err(e) => r == Err(e)
  {
    ghost var states := States(markets);
    var j :- TakeSlot(user, index);
    assert States(markets) == states;
    SeatedSlot(user, index, j);
    var _ :- MarkPrice(markets[index].amm.State());
    var _ :- ReadOracle(markets, user, index, inputs.before, inputs.now);
    r := Trade(markets, user, j, direction, quote, inputs.now);
  }

  /** The slot just taken is for the market. */
  lemma SeatedSlot(user: UserAccount, index: u64, j: nat)
    requires j < |user.positions| && user.Slots()[j].marketIndex == index
    ensures user.positions[j].marketIndex == index
  {
  }

  method FinishOpen(config: I.Config, markets: seq<MarketAccount>, user: UserAccount, fill: Fill, index: nat,
                    direction: PositionDirection, limitPrice: u128, inputs: I.TradeInputs)
    returns (r: Result<()>)
    requires Distinct(markets) && index < |markets|
    modifies markets[index].amm, user
    ensures var t := I.Traded(old(Load(markets, user)), fill.quote, fill.base, fill.riskIncreasing);
            match I.FinishOpen(config, t, index, direction, limitPrice, inputs)
            case Ok(a) => r == Ok(()) && Load(markets, user) == a
            case Err(e) => r == Err(e)
  {
    var _ :- MarkPrice(markets[index].amm.State());
    var margin :- CalculateMarginRatio(markets, user);
    if margin.marginRatio < config.marginRatioInitial && fill.riskIncreasing {
      return Err(InsufficientCollateral);
    }
    var _ :- ChargeFee(markets, user, index, inputs.userFee, inputs.feeToMarket);
    var _ :- I.CheckDivergence(inputs.before, inputs.after, inputs.before.valid, fill.riskIncreasing);
    var _ :- I.CheckLimit(markets[index].amm.State(), direction, fill.quote, fill.base, limitPrice);
    r := FundMarket(markets, user, index, inputs.after.price, inputs.fundingBlocked, inputs.now);
  }

  method OpenPosition(config: I.Config, markets: seq<MarketAccount>, user: UserAccount, index: u64,
                      direction: PositionDirection, quote: u128, limitPrice: u128, inputs: I.TradeInputs)
    returns (r: Result<()>)
    requires Distinct(markets) && user.Valid()
    modifies markets, Amms(markets), user, user.positions
    ensures match I.OpenPosition(config, old(Load(markets, user)), index, direction, quote, limitPrice, inputs)
            case Ok(a) => r == Ok(()) && Load(markets, user) == a
            case Err(e) => r == Err(e)
  {
    if index >= |markets| || !markets[index].initialized {
      return Err(MarketIndexNotInitialized);
    }
    var _ :- Settle(markets, user);
    var fill :- OpenTrade(markets, user, index, direction, quote, inputs);
    r := FinishOpen(config, markets, user, fill, index, direction, limitPrice, inputs);
  }

  method FinishClose(markets: seq<MarketAccount>, user: UserAccount, index: nat, inputs: I.TradeInputs)
    returns (r: Result<()>)
    requires Distinct(markets) && index < |markets|
    modifies markets[index].amm, user
    ensures match I.FinishClose(old(Load(markets, user)), index, inputs)
            case Ok(a) => r == Ok(()) && Load(markets, user) == a
            case Err(e) => r == Err(e)
  {
    var _ :- ChargeFee(markets, user, index, inputs.userFee, inputs.feeToMarket);
    var _ :- MarkPrice(markets[index].amm.State());
    var _ :- ReadOracle(markets, user, index, inputs.after, inputs.now);
    var _ :- I.CheckDivergence(inputs.before, inputs.after, inputs.after.valid, false);
    r := FundMarket(markets, user, index, inputs.after.price, inputs.fundingBlocked, inputs.now);
  }

  method CloseSettled(markets: seq<MarketAccount>, user: UserAccount, index: u64, inputs: I.TradeInputs)
    returns (r: Result<()>)
    requires Distinct(markets) && user.Valid() && index < |markets|
    modifies markets, Amms(markets), user, user.positions
    ensures match I.CloseSettled(old(Load(markets, user)), index, inputs)
            case Ok(a) => r == Ok(()) && Load(markets, user) == a
            case Err(e) => r == Err(e)
  {
    var found := FindSlot(user, index);
    if found.None? {
      return Err(UserHasNoPositionInMarket);
    }
    var _ :- MarkPrice(markets[index].amm.State());
    var _ :- CloseAt(markets, user, found.value, inputs.now);
    r := FinishClose(markets, user, index, inputs);
  }

  method ClosePosition(markets: seq<MarketAccount>, user: UserAccount, index: u64, inputs: I.TradeInputs)
    returns (r: Result<()>)
    requires Distinct(markets) && user.Valid()
    modifies markets, Amms(markets), user, user.positions
    ensures match I.ClosePosition(old(Load(markets, user)), index, inputs)
            case Ok(a) => r == Ok(()) && Load(markets, user) == a
            case Err(e) => r == Err(e)
  {
    if index >= |markets| || !markets[index].initialized {
      return Err(MarketIndexNotInitialized);
    }
    var _ :- Settle(markets, user);
    r := CloseSettled(markets, user, index, inputs);
  }

  // ----- liquidate

  method LiquidateSlot(markets: seq<MarketAccount>, user: UserAccount, j: nat, blocked: set<u64>, now: i64)
    returns (r: Result<u128>)
    requires Distinct(markets) && user.Valid() && j < |user.positions|
    modifies markets, Amms(markets), user, user.positions[j]
    ensures match I.LiquidateSlot(old(Load(markets, user)), j, blocked, now)
            case Ok((a, value)) => r == Ok(value) && Load(markets, user) == a
            case Err(e) => r == Err(e)
  {
    var position := user.positions[j];
    if position.baseAssetAmount == 0 {
      return Ok(0);
    }
    if position.marketIndex >= |markets| {
      return Err(AccountNotFound);
    }
    if position.marketIndex in blocked {
      return Err(LiquidationsBlockedByOracle);
    }
    var market := markets[position.marketIndex];
    var _ :- MarkPrice(market.amm.State());
    ghost var i := position.marketIndex;
    var closed :- CloseAt(markets, user, j, now);
    assert States(markets)[i] == market.State();
    var _ :- MarkPrice(market.amm.State());
    r := Ok(closed.0);
  }

  /** A failure on the way is the failure of the whole loop. */
  lemma {:induction false} LoopFails(step: I.SlotStep, a: I.Accounts, k: nat, n: nat)
    requires k <= n && I.SlotLoop(step, a, k).Err?
    ensures I.SlotLoop(step, a, n) == I.SlotLoop(step, a, k)
  {
    if k < n {
      LoopFails(step, a, k, n - 1);
    }
  }

  /** What the loop has done after j turns, and what the next turn adds to it. */
  lemma LoopStep(step: I.SlotStep, a: I.Accounts, before: I.Accounts, closed: u128, j: nat)
    requires I.SlotLoop(step, a, j) == Ok((before, closed))
    ensures I.SlotLoop(step, a, j + 1) == I.Tally(closed, step(before, j))
  {
  }

  /** One turn of the loop: closes a slot and adds its value to the total. */
  method LiquidateAndTally(markets: seq<MarketAccount>, user: UserAccount, j: nat, blocked: set<u64>, now: i64, closed: u128)
    returns (r: Result<u128>)
    requires Distinct(markets) && user.Valid() && j < |user.positions|
    modifies markets, Amms(markets), user, user.positions[j]
    ensures match I.Tally(closed, I.LiquidateSlot(old(Load(markets, user)), j, blocked, now))
            case Ok((a, total)) => r == Ok(total) && Load(markets, user) == a
            case Err(e) => r == Err(e)
  {
    var value :- LiquidateSlot(markets, user, j, blocked, now);
    r := FitU128(closed + value);
  }

  method LiquidateSlots(markets: seq<MarketAccount>, user: UserAccount, blocked: set<u64>, now: i64)
    returns (r: Result<u128>)
    requires Distinct(markets) && user.Valid()
    modifies markets, Amms(markets), user, user.positions
    ensures var before := old(Load(markets, user));
            match I.LiquidateSlots(before, |before.user.positions|, blocked, now)
            case Ok((a, closed)) => r == Ok(closed) && Load(markets, user) == a
            case Err(e) => r == Err(e)
  {
    ghost var before, step := Load(markets, user), I.FullStep(blocked, now);
    ghost var current := before;
    var baseAssetValueClosed: u128 := 0;
    var j := 0;
    while j < |user.positions|
      invariant j <= |user.positions| == |before.user.positions|
      invariant current == Load(markets, user)
      invariant I.SlotLoop(step, before, j) == Ok((current, baseAssetValueClosed))
    {
      LoopStep(step, before, current, baseAssetValueClosed, j);
      var tallied := LiquidateAndTally(markets, user, j, blocked, now, baseAssetValueClosed);
      if tallied.Err? {
        LoopFails(step, before, j + 1, |user.positions|);
        return tallied;
      }
      current := Load(markets, user);
      baseAssetValueClosed := tallied.value;
      j := j + 1;
    }
    r := Ok(baseAssetValueClosed);
  }

  method TrimSlot(config: I.Config, markets: seq<MarketAccount>, user: UserAccount, j: nat, blocked: set<u64>, now: i64)
    returns (r: Result<u128>)
    requires Distinct(markets) && user.Valid() && j < |user.positions|
    modifies markets, Amms(markets), user, user.positions[j]
    ensures match I.TrimSlot(config, old(Load(markets, user)), j, blocked, now)
            case Ok((a, value)) => r == Ok(value) && Load(markets, user) == a
            case Err(e) => r == Err(e)
  {
    var position := user.positions[j];
    if position.baseAssetAmount == 0 {
      return Ok(0);
    }
    if position.marketIndex >= |markets| {
      return Err(AccountNotFound);
    }
    var amm := markets[position.marketIndex].amm;
    var mark :- MarkPrice(amm.State());
    if position.marketIndex in blocked {
      return Err(LiquidationsBlockedByOracle);
    }
    var valued :- Tr.ValueAndPnl(position.baseAssetAmount, position.quoteAssetAmount, amm.State());
    var toClose :- I.PartialValue(config, valued.0);
    ghost var i := position.marketIndex;
    var _ :- ReduceAt(markets, user, j, Tr.DirectionToClose(position.baseAssetAmount), toClose, now, Some(mark));
    assert States(markets)[i].amm == amm.State();
    var _ :- MarkPrice(amm.State());
    r := Ok(toClose);
  }

  /** One turn of the loop: reduces a slot and adds the value closed to the total. */
  method TrimAndTally(config: I.Config, markets: seq<MarketAccount>, user: UserAccount, j: nat, blocked: set<u64>, now: i64,
                      closed: u128)
    returns (r: Result<u128>)
    requires Distinct(markets) && user.Valid() && j < |user.positions|
    modifies markets, Amms(markets), user, user.positions[j]
    ensures match I.Tally(closed, I.TrimSlot(config, old(Load(markets, user)), j, blocked, now))
            case Ok((a, total)) => r == Ok(total) && Load(markets, user) == a
            case Err(e) => r == Err(e)
  {
    var value :- TrimSlot(config, markets, user, j, blocked, now);
    r := FitU128(closed + value);
  }

  method TrimSlots(config: I.Config, markets: seq<MarketAccount>, user: UserAccount, blocked: set<u64>, now: i64)
    returns (r: Result<u128>)
    requires Distinct(markets) && user.Valid()
    modifies markets, Amms(markets), user, user.positions
    ensures var before := old(Load(markets, user));
            match I.TrimSlots(config, before, |before.user.positions|, blocked, now)
            case Ok((a, closed)) => r == Ok(closed) && Load(markets, user) == a
            case Err(e) => r == Err(e)
  {
    ghost var before, step := Load(markets, user), I.PartialStep(config, blocked, now);
    ghost var current := before;
    var baseAssetValueClosed: u128 := 0;
    var j := 0;
    while j < |user.positions|
      invariant j <= |user.positions| == |before.user.positions|
      invariant current == Load(markets, user)
      invariant I.SlotLoop(step, before, j) == Ok((current, baseAssetValueClosed))
    {
      LoopStep(step, before, current, baseAssetValueClosed, j);
      var tallied := TrimAndTally(config, markets, user, j, blocked, now, baseAssetValueClosed);
      if tallied.Err? {
        LoopFails(step, before, j + 1, |user.positions|);
        return tallied;
      }
      current := Load(markets, user);
      baseAssetValueClosed := tallied.value;
      j := j + 1;
    }
    r := Ok(baseAssetValueClosed);
  }

  /** Takes the penalty from the user; the result is the liquidator's reward. */
  method Penalise(markets: seq<MarketAccount>, user: UserAccount, fee: u128, vault: u64, shareDenominator: u64)
    returns (r: Result<nat>)
    modifies user
    ensures match I.Penalise(old(Load(markets, user)), fee, vault, shareDenominator)
            case Ok((a, reward)) => r == Ok(reward) && Load(markets, user) == a
            case Err(e) => r == Err(e)
  {
    if fee >= 0x1_0000_0000_0000_0000 {
      return Err(CastingFailure);
    }
    user.collateral :- FitU128(user.collateral - fee);
    r := DivU(Min(fee, vault), shareDenominator);
  }

  method LiquidateSettled(config: I.Config, markets: seq<MarketAccount>, user: UserAccount, margin: I.Margin,
                          blocked: set<u64>, vault: u64, now: i64)
    returns (r: Result<nat>)
    requires Distinct(markets) && user.Valid()
    modifies markets, Amms(markets), user, user.positions
    ensures match I.LiquidateSettled(config, old(Load(markets, user)), margin, blocked, vault, now)
            case Ok((a, reward)) => r == Ok(reward) && Load(markets, user) == a
            case Err(e) => r == Err(e)
  {
    if margin.marginRatio <= config.marginRatioMaintenance {
      var _ :- LiquidateSlots(markets, user, blocked, now);
      var fee :- I.Fraction(user.collateral, config.fullPenaltyNumerator, config.fullPenaltyDenominator);
      r := Penalise(markets, user, fee, vault, config.fullLiquidatorShareDenominator);
    } else {
      var _ :- TrimSlots(config, markets, user, blocked, now);
      var fee :- I.Fraction(margin.totalCollateral, config.partialPenaltyNumerator, config.partialPenaltyDenominator);
      r := Penalise(markets, user, fee, vault, config.partialLiquidatorShareDenominator);
    }
  }

  method Liquidate(config: I.Config, markets: seq<MarketAccount>, user: UserAccount, blocked: set<u64>, vault: u64, now: i64)
    returns (r: Result<nat>)
    requires Distinct(markets) && user.Valid()
    modifies markets, Amms(markets), user, user.positions
    ensures match I.Liquidate(config, old(Load(markets, user)), blocked, vault, now)
            case Ok((a, reward)) => r == Ok(reward) && Load(markets, user) == a
            case Err(e) => r == Err(e)
  {
    var _ :- Settle(markets, user);
    var margin :- CalculateMarginRatio(markets, user);
    if margin.marginRatio > config.marginRatioPartial {
      return Err(SufficientCollateral);
    }
    r := LiquidateSettled(config, markets, user, margin, blocked, vault, now);
  }

  // ----- Deposits, withdrawals and the fee pool

  method Deposit(markets: seq<MarketAccount>, user: UserAccount, amount: u64) returns (r: Result<()>)
    requires user.Valid()
    modifies user, user.positions
    ensures match I.Deposit(old(Load(markets, user)), amount)
            case Ok(a) => r == Ok(()) && Load(markets, user) == a
            case Err(e) => r == Err(e)
  {
    if amount == 0 {
      return Err(InsufficientDeposit);
    }
    user.collateral :- FitU128(user.collateral + amount);
    r := Settle(markets, user);
  }

  method PayOut(config: I.Config, markets: seq<MarketAccount>, user: UserAccount, amount: u64, available: u64)
    returns (r: Result<()>)
    modifies user
    ensures match I.PayOut(config, old(Load(markets, user)), amount, available)
            case Ok(a) => r == Ok(()) && Load(markets, user) == a
            case Err(e) => r == Err(e)
  {
    if amount > user.collateral {
      return Err(InsufficientCollateral);
    }
    user.collateral :- FitU128(user.collateral - Min(amount, available));
    var margin :- CalculateMarginRatio(markets, user);
    if margin.marginRatio < config.marginRatioInitial {
      return Err(InsufficientCollateral);
    }
    r := Ok(());
  }

  method Withdraw(config: I.Config, markets: seq<MarketAccount>, user: UserAccount, amount: u64, available: u64)
    returns (r: Result<()>)
    requires user.Valid()
    modifies user, user.positions
    ensures match I.Withdraw(config, old(Load(markets, user)), amount, available)
            case Ok(a) => r == Ok(()) && Load(markets, user) == a
            case Err(e) => r == Err(e)
  {
    var _ :- Settle(markets, user);
    r := PayOut(config, markets, user, amount, available);
  }

  method WithdrawFees(market: MarketAccount, amount: u64) returns (r: Result<()>)
    modifies market.amm
    ensures match I.WithdrawFees(old(market.State()), amount)
            case Ok(m) => r == Ok(()) && market.State() == m
            case Err(e) => r == Err(e)
  {
    var amm := market.amm;
    var available :- FitU128(F.FeeFloor(amm.State()) - amm.totalFeeWithdrawn);
    if amount > available {
      return Err(AdminWithdrawTooLarge);
    }
    amm.totalFeeWithdrawn := amm.totalFeeWithdrawn + amount;
    r := Ok(());
  }

  method TopUpFromInsurance(market: MarketAccount, amount: u64) returns (r: Result<()>)
    modifies market.amm
    ensures match I.TopUpFromInsurance(old(market.State()), amount)
            case Ok(m) => r == Ok(()) && market.State() == m
            case Err(e) => r == Err(e)
  {
    var amm := market.amm;
    amm.totalFeeMinusDistributions :- FitU128(amm.totalFeeMinusDistributions + amount);
    r := Ok(());
  }
}
