/** When a close succeeds: in a sound state, whenever its numbers are in range. */
module Closability {
  import opened Numeric
  import opened State
  import opened Twap
  import opened Trading
  import opened Shapes
  import opened Rounding
  import opened Equity
  import opened Aggregates
  import opened ClearingHouse
  import opened Invariants
  import I = Instructions

  // ----- The aggregates hold every slot

  lemma {:induction false} SlotWithin(positions: seq<Position>, j: nat)
    requires j < |positions|
    ensures var p := positions[j];
            && Max(p.baseAssetAmount, 0) <= SlotsTotal(positions, p.marketIndex, LongBase)
            && SlotsTotal(positions, p.marketIndex, ShortBase) <= Min(p.baseAssetAmount, 0)
  {
    var n := |positions| - 1;
    SlotsTotalSigns(positions[..n], positions[j].marketIndex);
    if j < n {
      SlotWithin(positions[..n], j);
    }
  }

  lemma {:induction false} UserWithin(users: seq<User>, u: nat, index: int)
    requires u < |users|
    ensures SlotsTotal(users[u].positions, index, LongBase) <= UsersTotal(users, index, LongBase)
    ensures UsersTotal(users, index, ShortBase) <= SlotsTotal(users[u].positions, index, ShortBase)
  {
    var n := |users| - 1;
    UsersTotalSigns(users[..n], index);
    SlotsTotalSigns(users[n].positions, index);
    if u < n {
      UserWithin(users[..n], u, index);
    }
  }

  /** Taking an open position off its market never fails: the open interest counts it, and the
      aggregates hold it. */
  lemma RetireSucceeds(h: House, u: nat, j: nat, amm: Amm)
    requires Sound(h) && u < |h.users| && j < I.SLOTS && h.users[u].positions[j].IsOpen()
    ensures var p := h.users[u].positions[j];
            p.marketIndex < |h.markets| && Retire(h.markets[p.marketIndex].(amm := amm), p).Ok?
  {
    var p := h.users[u].positions[j];
    assert AggregatesMatch(h.markets[p.marketIndex], h.users, p.marketIndex);
    SlotCounted(h.users[u].positions, j);
    UserCounted(h.users, u, p.marketIndex);
    SlotWithin(h.users[u].positions, j);
    UserWithin(h.users, u, p.marketIndex);
  }

  // ----- The ranges

  /** The numbers of a close: the average, the two reserves, the value before its last floor, the entry
      notional as a signed number, and the collateral after it. */
  predicate InRange(collateral: u128, a: Amm, base: i128, entry: u128, now: i64) {
    && NewMarkTwap(a, now, None).Ok?
    && 0 < a.baseAssetReserve + base < 0x1_0000_0000_0000_0000_0000_0000_0000_0000
    && TerminalQuote(a, base) < 0x1_0000_0000_0000_0000_0000_0000_0000_0000
    && RawValue(a, base) < 0x1_0000_0000_0000_0000_0000_0000_0000_0000
    && entry < 0x8000_0000_0000_0000_0000_0000_0000_0000
    && collateral + Profit(a, base, entry) < 0x1_0000_0000_0000_0000_0000_0000_0000_0000
  }

  /** The swap of a close, on the curve of a live market. */
  lemma CloseSwapsIff(m: Market, base: i128, now: i64)
    requires m.initialized && CurveSound(m) && base != 0
    ensures var a := m.amm;
            SwapBaseAsset(a, Abs(base), SwapDirectionToClose(base), now).Ok?
            <==> && NewMarkTwap(a, now, None).Ok?
                 && 0 < a.baseAssetReserve + base < 0x1_0000_0000_0000_0000_0000_0000_0000_0000
                 && TerminalQuote(a, base) < 0x1_0000_0000_0000_0000_0000_0000_0000_0000
                 && RawValue(a, base) < 0x1_0000_0000_0000_0000_0000_0000_0000_0000
  {
    var a := m.amm;
    if 0 < a.baseAssetReserve + base {
      RawValueNonnegative(a, base);
      FloorAtLeast(a.sqrtK * a.sqrtK, a.baseAssetReserve + base, 0);
    }
  }

  /** The profit of a close fits whenever the entry notional is a signed number. */
  lemma ProfitFitsIff(value: u128, entry: u128, base: i128)
    requires base != 0 && value < 0x8000_0000_0000_0000_0000_0000_0000_0000
    ensures CalculatePnl(value, entry, SwapDirectionToClose(base)).Ok?
            <==> entry < 0x8000_0000_0000_0000_0000_0000_0000_0000
    ensures CalculatePnl(value, entry, SwapDirectionToClose(base)).Ok? ==>
              CalculatePnl(value, entry, SwapDirectionToClose(base)).value == ProfitAt(base, entry, value)
  {
  }

  /** A close of an open slot in a sound state succeeds if and only if its numbers are in range: it
      never fails on the aggregates, on the open interest or on a subtraction of reserves. */
  lemma CloseSucceedsIff(h: House, u: nat, j: nat, now: i64)
    requires Sound(h) && u < |h.users| && j < I.SLOTS && h.users[u].positions[j].IsOpen()
    ensures var p := h.users[u].positions[j];
            && p.marketIndex < |h.markets|
            && (I.CloseSlot(Load(h, u), j, now).Ok?
                <==> InRange(h.users[u].collateral, h.markets[p.marketIndex].amm, p.baseAssetAmount, p.quoteAssetAmount, now))
  {
    var p := h.users[u].positions[j];
    var m := h.markets[p.marketIndex];
    OpenSlotIsLive(h, u, j);
    CloseSwapsIff(m, p.baseAssetAmount, now);
    if SwapBaseAsset(m.amm, Abs(p.baseAssetAmount), SwapDirectionToClose(p.baseAssetAmount), now).Ok? {
      ClosePaysIff(h, u, j, now);
    }
  }

  /** Once the swap of a close succeeds, only the pnl and the collateral can still leave their ranges. */
  lemma ClosePaysIff(h: House, u: nat, j: nat, now: i64)
    requires Sound(h) && u < |h.users| && j < I.SLOTS && h.users[u].positions[j].IsOpen()
    requires var p := h.users[u].positions[j];
             && p.marketIndex < |h.markets|
             && SwapBaseAsset(h.markets[p.marketIndex].amm, Abs(p.baseAssetAmount),
                              SwapDirectionToClose(p.baseAssetAmount), now).Ok?
    ensures var p, collateral := h.users[u].positions[j], h.users[u].collateral;
            var m := h.markets[p.marketIndex];
            && 0 < m.amm.baseAssetReserve + p.baseAssetAmount
            && (Close(collateral, m, p, now).Ok?
                <==> && p.quoteAssetAmount < 0x8000_0000_0000_0000_0000_0000_0000_0000
                     && collateral + Profit(m.amm, p.baseAssetAmount, p.quoteAssetAmount)
                        < 0x1_0000_0000_0000_0000_0000_0000_0000_0000)
  {
    var p := h.users[u].positions[j];
    var m := h.markets[p.marketIndex];
    var direction := SwapDirectionToClose(p.baseAssetAmount);
    var (amm, value) := SwapBaseAsset(m.amm, Abs(p.baseAssetAmount), direction, now).value;
    SwapBaseShape(m.amm, Abs(p.baseAssetAmount), direction, now);
    assert value == Value(m.amm, p.baseAssetAmount);
    ProfitFitsIff(value, p.quoteAssetAmount, p.baseAssetAmount);
    RetireSucceeds(h, u, j, amm);
  }
}
