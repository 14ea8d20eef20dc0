/** Runs from the empty house to the states in which the program does not do what one would expect:
    an account deleted with its position, a repeg the pool cannot pay, a position without a base. */
module Scenarios {
  import opened Numeric
  import opened State
  import opened Curve
  import opened Twap
  import opened Trading
  import opened Funding
  import opened Settling
  import opened Aggregates
  import opened ClearingHouse
  import opened Invariants
  import opened Runs
  import I = Instructions
  import Liquidation
  import Repegs

  // ----- Opening a position when nothing else happens

  const SILENT := I.OracleReading(0, 0, false, false)

  /** No fees, no valid oracle, no funding. */
  const QUIET := I.TradeInputs(0, SILENT, SILENT, true, 0, 0)

  /** A user without positions opens one: all that open_position does is the increase. */
  lemma QuietOpen(a: I.Accounts, index: u64, direction: PositionDirection, quote: u128, m': Market, p': Position,
                  acquired: i128)
    requires index < |a.markets| && a.markets[index].initialized && NoOpenPosition(a.user) && a.user.positions != []
    requires var m := a.markets[index];
             && MarkPrice(m.amm).Ok? && MarkPrice(m'.amm).Ok?
             && Increase(direction, quote, m, Position(index, 0, 0, 0, 0), 0) == Ok((m', p', acquired))
             && FitI64(0 - m'.amm.lastFundingRateTs).Ok? && NextUpdateWait(m'.amm.lastFundingRateTs, m'.amm.fundingPeriod).Ok?
    requires var b := Opened(a, index, m', p');
             I.MarginRatio(b).Ok? && I.MarginRatio(b).value.marginRatio >= I.DEFAULT_CONFIG.marginRatioInitial
    ensures I.OpenPosition(I.DEFAULT_CONFIG, a, index, direction, quote, 0, QUIET) == Ok(Opened(a, index, m', p'))
  {
    NothingLeftToSettle(a.markets, a.user.positions);
    FloorUnique(0, AMM_TO_QUOTE_PRECISION_RATIO, 0);
    assert I.Settle(a) == Ok(a);
    QuietTrade(a, index, direction, quote, m', p', acquired);
    QuietFinish(Opened(a, index, m', p'), index, direction, quote, Abs(acquired));
  }

  /** The user's first slot taken for a market, and both written back. */
  function Opened(a: I.Accounts, index: u64, m': Market, p': Position): I.Accounts
    requires index < |a.markets| && a.user.positions != []
  {
    I.Accounts(a.markets[index := m'], a.user.(positions := a.user.positions[0 := p']))
  }

  lemma QuietTrade(a: I.Accounts, index: u64, direction: PositionDirection, quote: u128, m': Market, p': Position,
                   acquired: i128)
    requires index < |a.markets| && NoOpenPosition(a.user) && a.user.positions != []
    requires MarkPrice(a.markets[index].amm).Ok?
    requires Increase(direction, quote, a.markets[index], Position(index, 0, 0, 0, 0), 0) == Ok((m', p', acquired))
    ensures I.OpenTrade(a, index, direction, quote, QUIET)
         == Ok(I.Traded(Opened(a, index, m', p'), quote, Abs(acquired), true))
  {
    assert I.FindSlot(a.user.positions, index, 0).None?;
    assert I.FreeSlot(a.user.positions, 0) == Some(0);
    var seated := a.(user := a.user.(positions := a.user.positions[0 := Position(index, 0, 0, 0, 0)]));
    assert I.IncreaseSlot(seated, 0, direction, quote, 0) == Ok((Opened(a, index, m', p'), acquired)) by {
      assert seated.user.positions[0 := p'] == a.user.positions[0 := p'];
    }
  }

  lemma QuietFinish(b: I.Accounts, index: u64, direction: PositionDirection, quote: u128, base: u128)
    requires index < |b.markets| && MarkPrice(b.markets[index].amm).Ok?
    requires var a := b.markets[index].amm;
             FitI64(0 - a.lastFundingRateTs).Ok? && NextUpdateWait(a.lastFundingRateTs, a.fundingPeriod).Ok?
    requires I.MarginRatio(b).Ok? && I.MarginRatio(b).value.marginRatio >= I.DEFAULT_CONFIG.marginRatioInitial
    ensures I.FinishOpen(I.DEFAULT_CONFIG, I.Traded(b, quote, base, true), index, direction, 0, QUIET) == Ok(b)
  {
    assert b.markets[index := b.markets[index]] == b.markets;
    assert I.ChargeFee(b, index, 0, 0) == Ok(b);
    assert I.FundMarket(b, index, 0, true, 0) == Ok(b);
  }

  /** A user whose one open slot is the first has its value and profit as his margin totals. */
  lemma FirstSlotMargin(markets: seq<Market>, p: Position, value: u128, pnl: i128)
    requires p.marketIndex < |markets| && p.IsOpen()
    requires ValueAndPnl(p.baseAssetAmount, p.quoteAssetAmount, markets[p.marketIndex].amm) == Ok((value, pnl))
    ensures I.MarginTotals(markets, EMPTY_USER.positions[0 := p]) == Ok((value, pnl))
  {
    var slots := EMPTY_USER.positions[0 := p];
    assert slots[..0] == [];
    assert slots[..1] == [p] && [p][..0] == [];
    assert I.MarginTotals(markets, slots[..1]) == Ok((value, pnl));
    assert slots[..2][..1] == slots[..1] && slots[..3][..2] == slots[..2] && slots[..4][..3] == slots[..3];
    assert I.MarginTotals(markets, slots[..2]) == Ok((value, pnl));
    assert I.MarginTotals(markets, slots[..3]) == Ok((value, pnl));
    assert I.MarginTotals(markets, slots[..4]) == Ok((value, pnl));
  }

  // ----- Runs, one event at a time

  /** Some clean run from the empty house ends in this state. */
  ghost predicate Reachable(h: House) {
    exists events :: CleanRun(Genesis(), events) && Run(Genesis(), events) == h
  }

  lemma NextReachable(h: House, e: Event)
    requires Reachable(h) && Clean(h, e)
    ensures Reachable(Next(h, e))
  {
    var events :| CleanRun(Genesis(), events) && Run(Genesis(), events) == h;
    var longer := events + [e];
    assert longer[..|events|] == events;
    assert CleanRun(Genesis(), longer) && Run(Genesis(), longer) == Next(h, e);
  }

  lemma ReachableIsSound(h: House)
    requires Reachable(h)
    ensures Sound(h)
  {
    var events :| CleanRun(Genesis(), events) && Run(Genesis(), events) == h;
    RunSound(events);
  }

  lemma CreateStep(h: House, h': House)
    requires Reachable(h) && h' == h.(users := h.users + [EMPTY_USER])
    ensures Reachable(h')
  {
    NextReachable(h, Event(I.DEFAULT_CONFIG, CreateUser));
  }

  lemma DepositStep(h: House, u: nat, amount: u64, h': House)
    requires Reachable(h) && u < |h.users| && NoOpenPosition(h.users[u]) && amount != 0
    requires FitU128(h.users[u].collateral + amount).Ok?
    requires h' == h.(users := h.users[u := h.users[u].(collateral := h.users[u].collateral + amount)])
    ensures Reachable(h')
  {
    DepositNext(h, u, amount);
    NextReachable(h, Event(I.DEFAULT_CONFIG, Deposit(u, amount)));
  }

  lemma DepositNext(h: House, u: nat, amount: u64)
    requires u < |h.users| && NoOpenPosition(h.users[u]) && amount != 0
    requires FitU128(h.users[u].collateral + amount).Ok?
    ensures var e := Event(I.DEFAULT_CONFIG, Deposit(u, amount));
            && Clean(h, e)
            && Next(h, e) == h.(users := h.users[u := h.users[u].(collateral := h.users[u].collateral + amount)])
  {
    var a := Load(h, u);
    var paid := a.(user := a.user.(collateral := a.user.collateral + amount));
    NothingLeftToSettle(a.markets, a.user.positions);
    FloorUnique(0, AMM_TO_QUOTE_PRECISION_RATIO, 0);
    assert I.Deposit(a, amount) == Ok(paid);
  }

  /** What opening a long does to a market and to a flat slot in it, prices and clock in order. */
  predicate Opens(m: Market, index: u64, quote: u128, m': Market, p': Position) {
    && m.initialized && MarkPrice(m.amm).Ok? && MarkPrice(m'.amm).Ok?
    && Increase(Long, quote, m, Position(index, 0, 0, 0, 0), 0) == Ok((m', p', p'.baseAssetAmount))
    && FitI64(0 - m'.amm.lastFundingRateTs).Ok? && NextUpdateWait(m'.amm.lastFundingRateTs, m'.amm.fundingPeriod).Ok?
  }

  predicate WellMargined(a: I.Accounts) {
    I.MarginRatio(a).Ok? && I.MarginRatio(a).value.marginRatio >= I.DEFAULT_CONFIG.marginRatioInitial
  }

  /** The house h' is h with the first slot of a flat user and one market written. */
  predicate Writes(h: House, u: nat, index: u64, m: Market, m': Market, p': Position, b: I.Accounts, h': House) {
    && u < |h.users| && index < |h.markets| && h.markets[index] == m
    && NoOpenPosition(h.users[u]) && h.users[u].positions != []
    && b == Opened(Load(h, u), index, m', p') && h' == Save(h, u, b)
  }

  /** A long opened quietly by a user without positions. */
  lemma OpenStep(h: House, u: nat, index: u64, quote: u128, m: Market, m': Market,
                 p': Position, b: I.Accounts, h': House)
    requires Reachable(h)
    requires Opens(m, index, quote, m', p') && WellMargined(b) && Writes(h, u, index, m, m', p', b, h')
    ensures Reachable(h')
  {
    QuietOpen(Load(h, u), index, Long, quote, m', p', p'.baseAssetAmount);
    NextOpens(h, u, index, quote, b);
  }

  lemma NextOpens(h: House, u: nat, index: u64, quote: u128, a: I.Accounts)
    requires Reachable(h) && u < |h.users|
    requires I.OpenPosition(I.DEFAULT_CONFIG, Load(h, u), index, Long, quote, 0, QUIET) == Ok(a)
    ensures Reachable(Save(h, u, a))
  {
    OpenNext(h, u, index, quote, a);
    NextReachable(h, Event(I.DEFAULT_CONFIG, OpenPosition(u, index, Long, quote, 0, QUIET)));
  }

  lemma OpenNext(h: House, u: nat, index: u64, quote: u128, a: I.Accounts)
    requires u < |h.users|
    requires I.OpenPosition(I.DEFAULT_CONFIG, Load(h, u), index, Long, quote, 0, QUIET) == Ok(a)
    ensures var e := Event(I.DEFAULT_CONFIG, OpenPosition(u, index, Long, quote, 0, QUIET));
            Clean(h, e) && Next(h, e) == Save(h, u, a)
  {
  }

  // ----- A fresh market

  const ROOT: u128 := 10_000_000_000_000

  /** A market with a root of 10^13 at a peg of 3, as initialize_market makes it. */
  const FRESH_MARKET := Market(true, 0, 0, 0, 0,
    Amm(ROOT, ROOT, ROOT, 3, 10_000_000, 0, 0, 0, 0, 3600, 1, 1, 0, 30_000_000, 0, 0, 0, 0))

  function OneMarket(m: Market): seq<Market> {
    Genesis().markets[0 := m]
  }

  /** A user with his first slot written. */
  function Holding(user: User, p: Position): User
    requires user.positions == EMPTY_USER.positions
  {
    user.(positions := EMPTY_USER.positions[0 := p])
  }

  lemma OneMarketWrites(m: Market, users: seq<User>, u: nat, m': Market, p': Position, user': User, users': seq<User>)
    requires u < |users| && users[u].positions == EMPTY_USER.positions
    requires user' == Holding(users[u], p') && users' == users[u := user']
    ensures Writes(House(OneMarket(m), users), u, 0, m, m', p', I.Accounts(OneMarket(m'), user'), House(OneMarket(m'), users'))
  {
    assert OneMarket(m)[0 := m'] == OneMarket(m');
  }

  const FRESH_HOUSE := House(OneMarket(FRESH_MARKET), [EMPTY_USER])

  lemma MarketIsFresh()
    ensures I.InitializeMarket(EMPTY_MARKET, ROOT, ROOT, 3600, 3, 0, 1, 1) == Ok(FRESH_MARKET)
  {
    assert CalculatePrice(ROOT, ROOT, 3) == Ok(30_000_000);
  }

  lemma FreshReached()
    ensures Reachable(FRESH_HOUSE)
  {
    assert CleanRun(Genesis(), []) && Run(Genesis(), []) == Genesis();
    MarketIsFresh();
    var e, h := Event(I.DEFAULT_CONFIG, InitializeMarket(0, ROOT, ROOT, 3600, 3, 0, 1, 1)), House(OneMarket(FRESH_MARKET), []);
    assert Next(Genesis(), e) == h;
    NextReachable(Genesis(), e);
    CreateStep(h, FRESH_HOUSE);
  }

  // ----- A position that is worth nothing

  const DUST_MARKET := FRESH_MARKET.(baseAssetAmountLong := 3_332_222_593, baseAssetAmount := 3_332_222_593,
    openInterest := 1,
    amm := FRESH_MARKET.amm.(baseAssetReserve := 9_996_667_777_407, quoteAssetReserve := 10_003_333_333_333))

  const DUST_LONG := Position(0, 3_332_222_593, 1, 0, 0)

  /** A user without collateral is long for one quote unit. */
  const DUST_USER := EMPTY_USER.(positions := EMPTY_USER.positions[0 := DUST_LONG])

  const DUST_HOUSE := House(OneMarket(DUST_MARKET), [DUST_USER])

  lemma DustOpens()
    ensures Opens(FRESH_MARKET, 0, 1, DUST_MARKET, DUST_LONG)
  {
    assert MarkPrice(FRESH_MARKET.amm) == Ok(30_000_000) && MarkPrice(DUST_MARKET.amm) == Ok(30_020_003);
    assert NewMarkTwap(FRESH_MARKET.amm, 0, None) == Ok(30_000_000);
    assert AssetToReserve(1, 3) == Ok(3_333_333_333);
    assert SwapOutput(3_333_333_333, ROOT, Add, ROOT) == Ok((9_996_667_777_407, 10_003_333_333_333));
  }

  lemma DustIsWorthNothing()
    ensures ValueAndPnl(3_332_222_593, 1, DUST_MARKET.amm) == Ok((0, -1))
  {
    assert SwapOutput(3_332_222_593, 9_996_667_777_407, Add, ROOT) == Ok((ROOT, ROOT));
    assert ReserveToAsset(3_333_333_333, 3) == Ok(0);
  }

  lemma DustWrites()
    ensures Writes(FRESH_HOUSE, 0, 0, FRESH_MARKET, DUST_MARKET, DUST_LONG,
                   I.Accounts(OneMarket(DUST_MARKET), DUST_USER), DUST_HOUSE)
  {
    OneMarketWrites(FRESH_MARKET, [EMPTY_USER], 0, DUST_MARKET, DUST_LONG, DUST_USER, [DUST_USER]);
  }

  lemma DustReached()
    ensures Reachable(DUST_HOUSE)
  {
    FreshReached();
    assert Opens(FRESH_MARKET, 0, 1, DUST_MARKET, DUST_LONG) by { DustOpens(); }
    assert WellMargined(I.Accounts(OneMarket(DUST_MARKET), DUST_USER)) by { DustMargin(); }
    DustWrites();
    OpenStep(FRESH_HOUSE, 0, 0, 1, FRESH_MARKET, DUST_MARKET, DUST_LONG,
             I.Accounts(OneMarket(DUST_MARKET), DUST_USER), DUST_HOUSE);
  }

  lemma DustMargin()
    ensures WellMargined(I.Accounts(OneMarket(DUST_MARKET), DUST_USER))
  {
    DustIsWorthNothing();
    FirstSlotMargin(OneMarket(DUST_MARKET), DUST_LONG, 0, -1);
  }

  /** A user whose position is worth nothing passes every margin check without collateral, and his
      account can be deleted with the position: the aggregates of the market no longer match. */
  lemma DeletionBreaksAggregates()
    ensures Reachable(DUST_HOUSE) && !NoOpenPosition(DUST_HOUSE.users[0])
    ensures Delete(DUST_HOUSE, 0).Ok? && !Sound(Delete(DUST_HOUSE, 0).value)
  {
    DustReached();
    ReachableIsSound(DUST_HOUSE);
    assert DUST_LONG.IsOpen() && DUST_HOUSE.users[0].positions[0] == DUST_LONG;
    DeleteKeepsAggregatesIff(DUST_HOUSE, 0);
  }

  const REPEGGED_MARKET := DUST_MARKET.(amm := DUST_MARKET.amm.(pegMultiplier := 6))

  lemma DustRepegCosts()
    ensures I.AdjustPegCost(DUST_MARKET, 6) == Ok((REPEGGED_MARKET, 1))
  {
    assert SwapOutput(3_332_222_593, 9_996_667_777_407, Add, ROOT) == Ok((ROOT, ROOT));
    assert ReserveToAsset(3_333_333_333, 3) == Ok(0);
    assert ReserveToAsset(3_333_333_333, 6) == Ok(1);
    assert ValueAndPnl(3_332_222_593, 0, DUST_MARKET.amm) == Ok((0, 0));
    assert ValueAndPnl(3_332_222_593, 0, REPEGGED_MARKET.amm) == Ok((1, 1));
  }

  lemma DustPrices()
    ensures TerminalPrice(DUST_MARKET) == Ok(30_000_000)
    ensures TerminalPrice(REPEGGED_MARKET) == Ok(60_000_000) && MarkPrice(REPEGGED_MARKET.amm) == Ok(60_040_006)
  {
    assert SwapOutput(3_332_222_593, 9_996_667_777_407, Add, ROOT) == Ok((ROOT, ROOT));
  }

  lemma FreshPrices(peg: u128)
    requires 1 <= peg <= 4
    ensures TerminalPrice(Repegs.AtPeg(FRESH_MARKET, peg)) == Ok(peg * 10_000_000)
    ensures MarkPrice(Repegs.AtPeg(FRESH_MARKET, peg).amm) == Ok(peg * 10_000_000)
    ensures I.AdjustPegCost(FRESH_MARKET, peg) == Ok((Repegs.AtPeg(FRESH_MARKET, peg), 0))
  {
    FloorUnique(ROOT * peg * 10_000_000, ROOT, peg * 10_000_000);
    FloorUnique(ROOT * ROOT, ROOT, ROOT);
    assert SwapOutput(0, ROOT, Remove, ROOT) == Ok((ROOT, ROOT));
  }

  /** With the oracle at a peg of 1, a fresh market at a peg of 3 can be moved to 2, and not to 4. */
  lemma RepegOnlyTowardOracle()
    ensures I.Repeg(FRESH_MARKET, 2, 10_000_000, 0, true) == Ok(Repegs.AtPeg(FRESH_MARKET, 2))
    ensures I.Repeg(FRESH_MARKET, 4, 10_000_000, 0, true) == Err(InvalidRepegDirection)
  {
    assert Repegs.AtPeg(FRESH_MARKET, 3) == FRESH_MARKET;
    FreshPrices(2);
    FreshPrices(3);
    FreshPrices(4);
  }

  /** A repeg of this market from 3 to 6 costs one unit, which the pool does not hold; with an oracle
      well above the new prices it is accepted. */
  lemma RepegBeyondPool()
    ensures Reachable(DUST_HOUSE) && DUST_HOUSE.markets[0] == DUST_MARKET
    ensures DUST_MARKET.amm.totalFeeMinusDistributions == 0 && I.AdjustPegCost(DUST_MARKET, 6) == Ok((REPEGGED_MARKET, 1))
    ensures I.Repeg(DUST_MARKET, 6, 1_000_000_000, 0, true) == Ok(REPEGGED_MARKET)
  {
    DustReached();
    DustRepegCosts();
    DustPrices();
    assert I.PayRepeg(REPEGGED_MARKET, 1) == Ok(REPEGGED_MARKET);
  }

  // ----- A position without a base

  const TALL_MARKET := FRESH_MARKET.(baseAssetAmountLong := 9_999_999_999_991, baseAssetAmount := 9_999_999_999_991,
    openInterest := 1,
    amm := FRESH_MARKET.amm.(baseAssetReserve := 9, quoteAssetReserve := 10_000_000_000_010_000_000_000_000))

  const TALL_LONG := Position(0, 9_999_999_999_991, 3_000_000_000_000_000, 0, 0)

  /** A user who has bought almost the whole base reserve. */
  const TALL_USER := User(1_000_000_000_000_000, EMPTY_USER.positions[0 := TALL_LONG])

  lemma TallOpens()
    ensures Opens(FRESH_MARKET, 0, 3_000_000_000_000_000, TALL_MARKET, TALL_LONG)
  {
    assert MarkPrice(FRESH_MARKET.amm) == Ok(30_000_000);
    assert MarkPrice(TALL_MARKET.amm) == Ok(33_333_333_333_366_666_666_666_666_666_666);
    assert NewMarkTwap(FRESH_MARKET.amm, 0, None) == Ok(30_000_000);
    assert AssetToReserve(3_000_000_000_000_000, 3) == Ok(10_000_000_000_000_000_000_000_000);
    assert SwapOutput(10_000_000_000_000_000_000_000_000, ROOT, Add, ROOT) == Ok((9, 10_000_000_000_010_000_000_000_000));
  }

  lemma TallMargin()
    ensures WellMargined(I.Accounts(OneMarket(TALL_MARKET), TALL_USER))
  {
    assert SwapOutput(9_999_999_999_991, 9, Add, ROOT) == Ok((ROOT, ROOT));
    assert ReserveToAsset(10_000_000_000_000_000_000_000_000, 3) == Ok(3_000_000_000_000_000);
    assert ValueAndPnl(9_999_999_999_991, 3_000_000_000_000_000, TALL_MARKET.amm) == Ok((3_000_000_000_000_000, 0));
    FirstSlotMargin(OneMarket(TALL_MARKET), TALL_LONG, 3_000_000_000_000_000, 0);
  }

  const RICH := EMPTY_USER.(collateral := 1_000_000_000_000_000)

  const RICH_HOUSE := House(OneMarket(FRESH_MARKET), [RICH])

  const TALL_HOUSE := House(OneMarket(TALL_MARKET), [TALL_USER])

  const CROWD := [TALL_USER, EMPTY_USER]

  lemma RichReached()
    ensures Reachable(RICH_HOUSE)
  {
    FreshReached();
    assert FRESH_HOUSE.(users := FRESH_HOUSE.users[0 := RICH]) == RICH_HOUSE;
    DepositStep(FRESH_HOUSE, 0, 1_000_000_000_000_000, RICH_HOUSE);
  }

  lemma CrowdReached()
    ensures Reachable(House(OneMarket(TALL_MARKET), CROWD))
  {
    TallReached();
    assert [TALL_USER] + [EMPTY_USER] == CROWD;
    CreateStep(TALL_HOUSE, House(OneMarket(TALL_MARKET), CROWD));
  }

  lemma TallWrites()
    ensures Writes(RICH_HOUSE, 0, 0, FRESH_MARKET, TALL_MARKET, TALL_LONG,
                   I.Accounts(OneMarket(TALL_MARKET), TALL_USER), TALL_HOUSE)
  {
    OneMarketWrites(FRESH_MARKET, [RICH], 0, TALL_MARKET, TALL_LONG, TALL_USER, [TALL_USER]);
  }

  lemma TallReached()
    ensures Reachable(TALL_HOUSE)
  {
    RichReached();
    assert Opens(FRESH_MARKET, 0, 3_000_000_000_000_000, TALL_MARKET, TALL_LONG) by { TallOpens(); }
    assert WellMargined(I.Accounts(OneMarket(TALL_MARKET), TALL_USER)) by { TallMargin(); }
    TallWrites();
    OpenStep(RICH_HOUSE, 0, 0, 3_000_000_000_000_000, FRESH_MARKET, TALL_MARKET, TALL_LONG,
             I.Accounts(OneMarket(TALL_MARKET), TALL_USER), TALL_HOUSE);
  }

  /** An entry without a base. */
  const IDLE_LONG := Position(0, 0, 1, 0, 0)

  const IDLE_MARKET := TALL_MARKET.(openInterest := 2,
    amm := TALL_MARKET.amm.(quoteAssetReserve := 10_000_000_000_010_003_333_333_333,
                            lastMarkPriceTwap := 9_259_259_259_268_518_518_548_510_185))

  lemma IdleOpens()
    ensures Opens(TALL_MARKET, 0, 1, IDLE_MARKET, IDLE_LONG)
  {
    assert MarkPrice(TALL_MARKET.amm) == Ok(33_333_333_333_366_666_666_666_666_666_666);
    assert MarkPrice(IDLE_MARKET.amm) == Ok(33_333_333_333_366_677_777_777_776_666_666);
    assert NewMarkTwap(TALL_MARKET.amm, 0, None) == Ok(9_259_259_259_268_518_518_548_510_185);
    assert AssetToReserve(1, 3) == Ok(3_333_333_333);
    assert SwapOutput(3_333_333_333, 10_000_000_000_010_000_000_000_000, Add, ROOT)
        == Ok((9, 10_000_000_000_010_003_333_333_333));
  }

  const IDLE_USER := EMPTY_USER.(positions := EMPTY_USER.positions[0 := IDLE_LONG])

  const IDLE_HOUSE := House(OneMarket(IDLE_MARKET), [TALL_USER, IDLE_USER])

  lemma IdleMargin()
    ensures WellMargined(I.Accounts(OneMarket(IDLE_MARKET), IDLE_USER))
  {
    NoMargin(OneMarket(IDLE_MARKET), IDLE_USER);
  }

  lemma IdleWrites()
    ensures Writes(House(OneMarket(TALL_MARKET), CROWD), 1, 0, TALL_MARKET, IDLE_MARKET, IDLE_LONG,
                   I.Accounts(OneMarket(IDLE_MARKET), IDLE_USER), IDLE_HOUSE)
  {
    OneMarketWrites(TALL_MARKET, CROWD, 1, IDLE_MARKET, IDLE_LONG, IDLE_USER, [TALL_USER, IDLE_USER]);
  }

  lemma IdleReached()
    ensures Reachable(IDLE_HOUSE)
  {
    CrowdReached();
    assert Opens(TALL_MARKET, 0, 1, IDLE_MARKET, IDLE_LONG) by { IdleOpens(); }
    assert WellMargined(I.Accounts(OneMarket(IDLE_MARKET), IDLE_USER)) by { IdleMargin(); }
    IdleWrites();
    OpenStep(House(OneMarket(TALL_MARKET), CROWD), 1, 0, 1, TALL_MARKET, IDLE_MARKET, IDLE_LONG,
             I.Accounts(OneMarket(IDLE_MARKET), IDLE_USER), IDLE_HOUSE);
  }

  /** A user without positions passes every margin check. */
  lemma NoMargin(markets: seq<Market>, user: User)
    requires NoOpenPosition(user)
    ensures WellMargined(I.Accounts(markets, user))
  {
    Liquidation.ClosedMargin(markets, user.positions);
  }

  lemma OneSlotCount(p: Position, index: int)
    ensures SlotsTotal(EMPTY_USER.positions[0 := p], index, OpenCount) == Weight(p, index, OpenCount)
  {
    ClosedTotals(EMPTY_USER.positions, index, OpenCount);
    SlotsUpdate(EMPTY_USER.positions, 0, p, index, OpenCount);
  }

  lemma IdleCount()
    ensures UsersTotal([TALL_USER, IDLE_USER], 0, OpenCount) == 1
  {
    OneSlotCount(TALL_LONG, 0);
    OneSlotCount(IDLE_LONG, 0);
    assert [TALL_USER, IDLE_USER][..1] == [TALL_USER] && [TALL_USER][..0] == [];
    assert UsersTotal([TALL_USER], 0, OpenCount) == UsersTotal([], 0, OpenCount) + SlotsTotal(TALL_USER.positions, 0, OpenCount);
  }

  /** After a user has bought almost the whole base reserve, another opens a long and acquires
      nothing: the open interest is two, and one position is open. */
  lemma IdleOpeningHappens()
    ensures Reachable(IDLE_HOUSE)
    ensures IDLE_HOUSE.markets[0].openInterest == 2 && UsersTotal(IDLE_HOUSE.users, 0, OpenCount) == 1
  {
    IdleReached();
    IdleCount();
  }
}
