/** What every run of the clearing house keeps. */
module Invariants {
  import opened Numeric
  import opened State
  import opened Curve
  import opened Trading
  import opened Shapes
  import opened Rounding
  import opened Funding
  import opened Aggregates
  import opened ClearingHouse
  import I = Instructions

  // ----- The invariant

  /** The curve of a live market: tight, and with the base of all positions added back, at its root. */
  predicate CurveSound(m: Market) {
    && (m.initialized ==>
          && 0 < m.amm.sqrtK
          && m.amm.sqrtK * m.amm.sqrtK < 0x1_0000_0000_0000_0000_0000_0000_0000_0000_0000_0000_0000_0000
          && 1 <= m.amm.minimumTradeSize
          && TightCurve(m.amm)
          && m.amm.baseAssetReserve + m.baseAssetAmount == m.amm.sqrtK)
    && (!m.initialized ==> m.openInterest == 0)
  }

  /** The fee pool never falls below half of all fees, nor that below what was withdrawn. */
  predicate FeesSound(a: Amm) {
    a.totalFeeWithdrawn <= FeeFloor(a) <= a.totalFeeMinusDistributions
  }

  /** A market's aggregates are sums over its users. */
  predicate AggregatesMatch(m: Market, users: seq<User>, index: int) {
    && m.baseAssetAmountLong == UsersTotal(users, index, LongBase)
    && m.baseAssetAmountShort == UsersTotal(users, index, ShortBase)
    && m.baseAssetAmount == m.baseAssetAmountLong + m.baseAssetAmountShort
    && UsersTotal(users, index, OpenCount) <= m.openInterest
  }

  /** At most one open slot per market. */
  predicate OneSlotPerMarket(positions: seq<Position>) {
    forall j, k :: 0 <= j < k < |positions| && positions[j].IsOpen() && positions[k].IsOpen() ==>
      positions[j].marketIndex != positions[k].marketIndex
  }

  predicate UserSound(u: User) {
    && |u.positions| == I.SLOTS
    && OneSlotPerMarket(u.positions)
    && forall j :: 0 <= j < |u.positions| && u.positions[j].IsOpen() ==> u.positions[j].marketIndex < MARKETS
  }

  predicate MarketsSound(h: House) {
    forall i :: 0 <= i < |h.markets| ==>
      CurveSound(h.markets[i]) && FeesSound(h.markets[i].amm) && AggregatesMatch(h.markets[i], h.users, i)
  }

  predicate Sound(h: House) {
    && |h.markets| == MARKETS
    && MarketsSound(h)
    && (forall u :: 0 <= u < |h.users| ==> UserSound(h.users[u]))
  }

  // ----- One slot

  /** By how much the open interest moved away from the number of open positions. */
  function InterestDrift(m: Market, p: Position, m': Market, p': Position): int {
    m'.openInterest - m.openInterest - ((if p'.IsOpen() then 1 else 0) - (if p.IsOpen() then 1 else 0))
  }

  /** What a trade on one slot does to its market, in terms of the slot alone. */
  predicate SoundTrade(m: Market, p: Position, m': Market, p': Position) {
    && p'.marketIndex == p.marketIndex
    && m'.initialized == m.initialized
    && m'.baseAssetAmountLong - m.baseAssetAmountLong == Max(p'.baseAssetAmount, 0) - Max(p.baseAssetAmount, 0)
    && m'.baseAssetAmountShort - m.baseAssetAmountShort == Min(p'.baseAssetAmount, 0) - Min(p.baseAssetAmount, 0)
    && m'.baseAssetAmount - m.baseAssetAmount == p'.baseAssetAmount - p.baseAssetAmount
    && InterestDrift(m, p, m', p') >= 0
    && m'.amm.baseAssetReserve + m'.baseAssetAmount == m.amm.baseAssetReserve + m.baseAssetAmount
    && TightCurve(m'.amm)
    && m'.amm == m.amm.(baseAssetReserve := m'.amm.baseAssetReserve, quoteAssetReserve := m'.amm.quoteAssetReserve,
                        lastMarkPriceTwap := m'.amm.lastMarkPriceTwap, lastMarkPriceTwapTs := m'.amm.lastMarkPriceTwapTs)
  }

  lemma IncreaseSound(direction: PositionDirection, quote: u128, m: Market, p: Position, now: i64)
    requires TightCurve(m.amm) && 1 <= m.amm.minimumTradeSize
    requires I.AddsTo(p.baseAssetAmount, direction)
    requires Increase(direction, quote, m, p, now).Ok?
    ensures var (m', p', _) := Increase(direction, quote, m, p, now).value;
            && SoundTrade(m, p, m', p')
            && InterestDrift(m, p, m', p') == (if quote != 0 && !p.IsOpen() && !p'.IsOpen() then 1 else 0)
  {
    if quote != 0 {
      IncreaseShape(direction, quote, m, p, now);
      SwapQuoteShape(m.amm, quote, QuoteSwapDirection(direction), now, None);
      AcquiredSign(m.amm, quote, QuoteSwapDirection(direction), now, None);
      var (m', p', acquired) := Increase(direction, quote, m, p, now).value;
      BookShape(m.(amm := m'.amm, openInterest := m'.openInterest), p'.baseAssetAmount, acquired);
    }
  }

  /** The guard of both callers: a reduction is by less than the position's value. */
  predicate Guarded(quote: u128, m: Market, p: Position) {
    && p.IsOpen()
    && ValueAndPnl(p.baseAssetAmount, p.quoteAssetAmount, m.amm).Ok?
    && quote < ValueAndPnl(p.baseAssetAmount, p.quoteAssetAmount, m.amm).value.0
  }

  lemma ReduceSound(quote: u128, collateral: u128, m: Market, p: Position, now: i64, mark: Option<u128>)
    requires TightCurve(m.amm) && 1 <= m.amm.minimumTradeSize
    requires Guarded(quote, m, p)
    requires Reduce(DirectionToClose(p.baseAssetAmount), quote, collateral, m, p, now, mark).Ok?
    ensures var (m', p', _, _) := Reduce(DirectionToClose(p.baseAssetAmount), quote, collateral, m, p, now, mark).value;
            SoundTrade(m, p, m', p') && InterestDrift(m, p, m', p') == 0
  {
    var direction := DirectionToClose(p.baseAssetAmount);
    NoSignFlip(quote, collateral, m, p, now, mark);
    ReduceShape(direction, quote, collateral, m, p, now, mark);
    SwapQuoteShape(m.amm, quote, QuoteSwapDirection(direction), now, mark);
    var (m', p', _, swapped) := Reduce(direction, quote, collateral, m, p, now, mark).value;
    BookShape(m.(amm := m'.amm, openInterest := m'.openInterest), p'.baseAssetAmount, swapped);
  }

  lemma CloseSound(collateral: u128, m: Market, p: Position, now: i64)
    requires p.IsOpen() && Close(collateral, m, p, now).Ok?
    ensures var (m', p', _, _) := Close(collateral, m, p, now).value;
            SoundTrade(m, p, m', p') && !p'.IsOpen() && InterestDrift(m, p, m', p') == 0
  {
    CloseShape(collateral, m, p, now);
    SwapBaseShape(m.amm, Abs(p.baseAssetAmount), SwapDirectionToClose(p.baseAssetAmount), now);
    var (m', p', _, _) := Close(collateral, m, p, now).value;
    BookShape(m.(amm := m'.amm, openInterest := m'.openInterest), p.baseAssetAmount, 0 - p.baseAssetAmount);
  }

  // ----- From one slot to the house

  /** No slot but j is open in a market. */
  predicate OnlySlot(positions: seq<Position>, j: nat, index: int) {
    forall k :: 0 <= k < |positions| && k != j && positions[k].IsOpen() ==> positions[k].marketIndex != index
  }

  lemma StoreMeasure(users: seq<User>, u: nat, j: nat, p': Position, collateral: u128, index: int, measure: Measure)
    requires u < |users| && j < |users[u].positions|
    ensures UsersTotal(users[u := User(collateral, users[u].positions[j := p'])], index, measure)
         == UsersTotal(users, index, measure)
            - Weight(users[u].positions[j], index, measure) + Weight(p', index, measure)
  {
    UsersUpdate(users, u, User(collateral, users[u].positions[j := p']), index, measure);
    SlotsUpdate(users[u].positions, j, p', index, measure);
  }

  lemma StoreAggregates(h: House, u: nat, j: nat, m': Market, p': Position, collateral: u128, i: nat)
    requires MarketsSound(h) && u < |h.users| && j < |h.users[u].positions|
    requires var p := h.users[u].positions[j];
             p.marketIndex < |h.markets| && SoundTrade(h.markets[p.marketIndex], p, m', p')
    requires i < |h.markets|
    ensures var p := h.users[u].positions[j];
            AggregatesMatch(if i == p.marketIndex then m' else h.markets[i],
                            h.users[u := User(collateral, h.users[u].positions[j := p'])], i)
  {
    StoreMeasure(h.users, u, j, p', collateral, i, LongBase);
    StoreMeasure(h.users, u, j, p', collateral, i, ShortBase);
    StoreMeasure(h.users, u, j, p', collateral, i, OpenCount);
  }

  lemma StoreKeepsSound(h: House, u: nat, j: nat, m': Market, p': Position, collateral: u128)
    requires Sound(h) && u < |h.users| && j < |h.users[u].positions|
    requires var p := h.users[u].positions[j];
             && p.marketIndex < |h.markets| && h.markets[p.marketIndex].initialized
             && SoundTrade(h.markets[p.marketIndex], p, m', p')
             && (p'.IsOpen() ==> OnlySlot(h.users[u].positions, j, p.marketIndex))
    ensures Sound(Save(h, u, I.Store(Load(h, u), j, m', p', collateral)))
  {
    var p, h' := h.users[u].positions[j], Save(h, u, I.Store(Load(h, u), j, m', p', collateral));
    forall i | 0 <= i < |h'.markets|
      ensures CurveSound(h'.markets[i]) && FeesSound(h'.markets[i].amm) && AggregatesMatch(h'.markets[i], h'.users, i)
    {
      StoreAggregates(h, u, j, m', p', collateral, i);
    }
  }

  // ----- Open slots are in live markets

  lemma {:induction false} SlotCounted(positions: seq<Position>, j: nat)
    requires j < |positions| && positions[j].IsOpen()
    ensures 1 <= SlotsTotal(positions, positions[j].marketIndex, OpenCount)
  {
    var n := |positions| - 1;
    SlotsTotalSigns(positions[..n], positions[j].marketIndex);
    if j < n {
      SlotCounted(positions[..n], j);
    }
  }

  lemma {:induction false} UserCounted(users: seq<User>, u: nat, index: int)
    requires u < |users|
    ensures SlotsTotal(users[u].positions, index, OpenCount) <= UsersTotal(users, index, OpenCount)
  {
    var n := |users| - 1;
    UsersTotalSigns(users[..n], index);
    SlotsTotalSigns(users[n].positions, index);
    if u < n {
      UserCounted(users[..n], u, index);
    }
  }

  lemma OpenSlotIsLive(h: House, u: nat, j: nat)
    requires MarketsSound(h) && u < |h.users| && j < |h.users[u].positions|
    requires var p := h.users[u].positions[j]; p.IsOpen() && p.marketIndex < |h.markets|
    ensures h.markets[h.users[u].positions[j].marketIndex].initialized
  {
    SlotCounted(h.users[u].positions, j);
    UserCounted(h.users, u, h.users[u].positions[j].marketIndex);
  }

  // ----- Operations on a slot

  lemma IncreaseSlotSound(h: House, u: nat, j: nat, direction: PositionDirection, quote: u128, now: i64)
    requires Sound(h) && u < |h.users| && j < I.SLOTS
    requires var p := h.users[u].positions[j];
             && p.marketIndex < |h.markets| && h.markets[p.marketIndex].initialized
             && I.AddsTo(p.baseAssetAmount, direction)
             && OnlySlot(h.users[u].positions, j, p.marketIndex)
    requires I.IncreaseSlot(Load(h, u), j, direction, quote, now).Ok?
    ensures Sound(Save(h, u, I.IncreaseSlot(Load(h, u), j, direction, quote, now).value.0))
  {
    var p := h.users[u].positions[j];
    var m := h.markets[p.marketIndex];
    IncreaseSound(direction, quote, m, p, now);
    var (m', p', _) := Increase(direction, quote, m, p, now).value;
    StoreKeepsSound(h, u, j, m', p', h.users[u].collateral);
  }

  lemma OpenSlotIsOnly(positions: seq<Position>, j: nat)
    requires OneSlotPerMarket(positions) && j < |positions| && positions[j].IsOpen()
    ensures OnlySlot(positions, j, positions[j].marketIndex)
  {
  }

  lemma ReduceSlotSound(h: House, u: nat, j: nat, quote: u128, now: i64, mark: Option<u128>)
    requires Sound(h) && u < |h.users| && j < I.SLOTS
    requires var p := h.users[u].positions[j];
             && p.marketIndex < |h.markets| && Guarded(quote, h.markets[p.marketIndex], p)
             && I.ReduceSlot(Load(h, u), j, DirectionToClose(p.baseAssetAmount), quote, now, mark).Ok?
    ensures var direction := DirectionToClose(h.users[u].positions[j].baseAssetAmount);
            Sound(Save(h, u, I.ReduceSlot(Load(h, u), j, direction, quote, now, mark).value.0))
  {
    var p, collateral := h.users[u].positions[j], h.users[u].collateral;
    var m := h.markets[p.marketIndex];
    OpenSlotIsLive(h, u, j);
    OpenSlotIsOnly(h.users[u].positions, j);
    ReduceSound(quote, collateral, m, p, now, mark);
    var (m', p', collateral', _) := Reduce(DirectionToClose(p.baseAssetAmount), quote, collateral, m, p, now, mark).value;
    StoreKeepsSound(h, u, j, m', p', collateral');
  }

  lemma CloseSlotSound(h: House, u: nat, j: nat, now: i64)
    requires Sound(h) && u < |h.users| && j < I.SLOTS && h.users[u].positions[j].IsOpen()
    requires I.CloseSlot(Load(h, u), j, now).Ok?
    ensures var a := I.CloseSlot(Load(h, u), j, now).value.0;
            && Sound(Save(h, u, a))
            && a.user.positions == h.users[u].positions[j := a.user.positions[j]]
            && !a.user.positions[j].IsOpen()
            && a.user.positions[j].marketIndex == h.users[u].positions[j].marketIndex
            && a.markets[a.user.positions[j].marketIndex].initialized
  {
    var p, collateral := h.users[u].positions[j], h.users[u].collateral;
    var m := h.markets[p.marketIndex];
    OpenSlotIsLive(h, u, j);
    CloseSound(collateral, m, p, now);
    var (m', p', collateral', _) := Close(collateral, m, p, now).value;
    StoreKeepsSound(h, u, j, m', p', collateral');
  }
}
