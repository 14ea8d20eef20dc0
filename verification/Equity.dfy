/** A user's equity across trades: what the valuation promises, what closing realises, and how far
    the floors of a trade can move the sum of realised and unrealised profit. */
module Equity {
  import opened Numeric
  import opened State
  import opened Curve
  import opened Twap
  import opened Trading
  import opened Shapes
  import opened Rounding

  /** How many quote units the conversion to reserves can lose: at most one up to a peg of 10^10 + 1. */
  function Slack(peg: int): nat
    requires 0 < peg
  {
    (peg + QUOTE_UNIT - 2) / QUOTE_UNIT
  }

  lemma SlackOfUsualPeg(peg: int)
    requires 0 < peg <= QUOTE_UNIT
    ensures Slack(peg) <= 1
  {
  }

  /** The value and the profit of a position as mathematical integers, without range checks. */
  function Value(a: Amm, base: int): int
    requires 0 < a.baseAssetReserve + base
  {
    RawValue(a, base) / QUOTE_UNIT
  }

  function Profit(a: Amm, base: int, entry: int): int
    requires 0 < a.baseAssetReserve + base
  {
    ProfitAt(base, entry, Value(a, base))
  }

  function ProfitAt(base: int, entry: int, value: int): int {
    if base > 0 then value - entry else entry - value - 1
  }

  // ----- Closing realises the valuation

  /** The valuation predicts the close: whenever closing succeeds, valuing the position just before
      gives the value it closes at, and the collateral moves by the predicted profit. */
  lemma CloseRealisesValuation(collateral: u128, m: Market, p: Position, now: i64)
    requires p.IsOpen() && Close(collateral, m, p, now).Ok?
    ensures ValueAndPnl(p.baseAssetAmount, p.quoteAssetAmount, m.amm).Ok?
    ensures var (value, pnl) := ValueAndPnl(p.baseAssetAmount, p.quoteAssetAmount, m.amm).value;
            var (_, _, collateral', closedAt) := Close(collateral, m, p, now).value;
            && closedAt == value
            && UpdatedCollateral(collateral, pnl) == Ok(collateral')
  {
    CloseShape(collateral, m, p, now);
    SwapBaseShape(m.amm, Abs(p.baseAssetAmount), SwapDirectionToClose(p.baseAssetAmount), now);
  }

  // ----- The conversion to reserves

  lemma ReserveLoss(quote: nat, peg: int)
    requires 0 < peg
    ensures 0 <= quote * QUOTE_UNIT - Reserves(quote, peg) * peg <= Slack(peg) * QUOTE_UNIT
  {
    FloorBounds(quote * QUOTE_UNIT, peg);
    FloorBounds(peg + QUOTE_UNIT - 2, QUOTE_UNIT);
  }

  /** Adding the reserves of a quote amount to a raw value raises its floor by about that amount. */
  lemma MoreRaw(raw: int, quote: nat, peg: int)
    requires 0 < peg
    ensures raw / QUOTE_UNIT + quote - Slack(peg) <= (raw + Reserves(quote, peg) * peg) / QUOTE_UNIT <= raw / QUOTE_UNIT + quote
  {
    ReserveLoss(quote, peg);
    var after := raw + Reserves(quote, peg) * peg;
    FloorShift(raw, QUOTE_UNIT, quote);
    FloorShift(raw, QUOTE_UNIT, quote - Slack(peg));
    FloorMono(after, raw + quote * QUOTE_UNIT, QUOTE_UNIT);
    FloorMono(raw + (quote - Slack(peg)) * QUOTE_UNIT, after, QUOTE_UNIT);
  }

  lemma LessRaw(raw: int, quote: nat, peg: int)
    requires 0 < peg
    ensures raw / QUOTE_UNIT - quote <= (raw - Reserves(quote, peg) * peg) / QUOTE_UNIT <= raw / QUOTE_UNIT - quote + Slack(peg)
  {
    ReserveLoss(quote, peg);
    var after := raw - Reserves(quote, peg) * peg;
    FloorShift(raw, QUOTE_UNIT, 0 - quote);
    FloorShift(raw, QUOTE_UNIT, Slack(peg) - quote);
    FloorMono(raw + (0 - quote) * QUOTE_UNIT, after, QUOTE_UNIT);
    FloorMono(after, raw + (Slack(peg) - quote) * QUOTE_UNIT, QUOTE_UNIT);
  }

  // ----- One trade

  /** A user's own swap leaves the reserve he would close at where it was, so his raw value moves by
      exactly the reserves swapped. */
  lemma RawValueMoves(a: Amm, base: int, a': Amm, base': int, r: int)
    requires 0 < a.baseAssetReserve + base == a'.baseAssetReserve + base'
    requires a'.sqrtK == a.sqrtK && a'.pegMultiplier == a.pegMultiplier
    requires base > 0 <==> base' > 0
    requires a'.quoteAssetReserve == a.quoteAssetReserve + (if base > 0 then r else 0 - r)
    ensures RawValue(a', base') == RawValue(a, base) + r * a.pegMultiplier
  {
    var z := TerminalQuote(a, base);
    var d := if base > 0 then a.quoteAssetReserve - z else z - a.quoteAssetReserve;
    assert TerminalQuote(a', base') == z;
    assert (d + r) * a.pegMultiplier == d * a.pegMultiplier + r * a.pegMultiplier;
  }

  /** Equity under an increase: the unrealised profit of a long may only shrink, that of a short may
      only grow, each by at most the slack. */
  lemma IncreaseEquity(direction: PositionDirection, quote: u128, m: Market, p: Position, now: i64)
    requires quote != 0 && Increase(direction, quote, m, p, now).Ok?
    requires 0 < m.amm.baseAssetReserve + p.baseAssetAmount
    requires var p' := Increase(direction, quote, m, p, now).value.1;
             if direction.Long? then p.baseAssetAmount > 0 && p'.baseAssetAmount > 0
             else p.baseAssetAmount < 0 && p'.baseAssetAmount < 0
    ensures var (m', p', _) := Increase(direction, quote, m, p, now).value;
            && 0 < m.amm.pegMultiplier
            && m'.amm.baseAssetReserve + p'.baseAssetAmount == m.amm.baseAssetReserve + p.baseAssetAmount
            && var change := Profit(m'.amm, p'.baseAssetAmount, p'.quoteAssetAmount)
                           - Profit(m.amm, p.baseAssetAmount, p.quoteAssetAmount);
               if direction.Long? then 0 - Slack(m.amm.pegMultiplier) <= change <= 0
               else 0 <= change <= Slack(m.amm.pegMultiplier)
  {
    IncreaseShape(direction, quote, m, p, now);
    SwapQuoteShape(m.amm, quote, QuoteSwapDirection(direction), now, None);
    var (m', p', _) := Increase(direction, quote, m, p, now).value;
    var peg := m.amm.pegMultiplier;
    RawValueMoves(m.amm, p.baseAssetAmount, m'.amm, p'.baseAssetAmount, Reserves(quote, peg));
    MoreRaw(RawValue(m.amm, p.baseAssetAmount), quote, peg);
  }

  /** A swap against a position takes about its quote amount off the position's value. */
  lemma SwapMovesValue(a: Amm, base: int, a': Amm, base': int, quote: nat)
    requires base != 0 && 0 < a.baseAssetReserve + base == a'.baseAssetReserve + base' && 0 < a.pegMultiplier
    requires a'.sqrtK == a.sqrtK && a'.pegMultiplier == a.pegMultiplier && (base > 0 <==> base' > 0)
    requires var r := Reserves(quote, a.pegMultiplier);
             a'.quoteAssetReserve == a.quoteAssetReserve + (if base > 0 then 0 - r else r)
    ensures Value(a, base) - quote <= Value(a', base') <= Value(a, base) - quote + Slack(a.pegMultiplier)
  {
    RawValueMoves(a, base, a', base', 0 - Reserves(quote, a.pegMultiplier));
    LessRaw(RawValue(a, base), quote, a.pegMultiplier);
  }

  /** A reduction takes about its quote amount off the position's value. */
  lemma ReduceMovesValue(quote: u128, collateral: u128, m: Market, p: Position, now: i64, mark: Option<u128>)
    requires p.IsOpen() && 0 < m.amm.baseAssetReserve + p.baseAssetAmount
    requires var direction := DirectionToClose(p.baseAssetAmount);
             && Reduce(direction, quote, collateral, m, p, now, mark).Ok?
             && var p' := Reduce(direction, quote, collateral, m, p, now, mark).value.1;
                if p.baseAssetAmount > 0 then p'.baseAssetAmount > 0 else p'.baseAssetAmount < 0
    ensures var direction := DirectionToClose(p.baseAssetAmount);
            var (m', p', _, _) := Reduce(direction, quote, collateral, m, p, now, mark).value;
            && 0 < m.amm.pegMultiplier
            && m'.amm.baseAssetReserve + p'.baseAssetAmount == m.amm.baseAssetReserve + p.baseAssetAmount
            && Value(m.amm, p.baseAssetAmount) - quote
               <= Value(m'.amm, p'.baseAssetAmount)
               <= Value(m.amm, p.baseAssetAmount) - quote + Slack(m.amm.pegMultiplier)
  {
    var direction := DirectionToClose(p.baseAssetAmount);
    ReduceShape(direction, quote, collateral, m, p, now, mark);
    SwapQuoteShape(m.amm, quote, QuoteSwapDirection(direction), now, mark);
    var (m', p', _, _) := Reduce(direction, quote, collateral, m, p, now, mark).value;
    SwapMovesValue(m.amm, p.baseAssetAmount, m'.amm, p'.baseAssetAmount, quote);
  }

  /** The entry notional closed cancels between what is realised and what stays unrealised. */
  lemma RealisedCancels(base: int, base': int, entry: int, entry': int, value: int, value': int, quote: u128, slack: nat)
    requires 0 <= entry - entry' < 0x1_0000_0000_0000_0000_0000_0000_0000_0000
    requires base != 0 && base' != 0 && (base > 0 <==> base' > 0)
    requires value - quote <= value' <= value - quote + slack
    requires ReducePnl(if base' > 0 then 1 else -1, quote, entry - entry').Ok?
    ensures var change := ReducePnl(if base' > 0 then 1 else -1, quote, entry - entry').value
                        + ProfitAt(base', entry', value') - ProfitAt(base, entry, value);
            if base > 0 then 0 <= change <= slack else 0 - slack <= change <= 0
  {
  }

  /** Equity under a reduction: what is realised and what stays unrealised add up to the profit
      before, within the slack, whatever share of the entry notional the floor apportions. */
  lemma ReduceEquity(quote: u128, collateral: u128, m: Market, p: Position, now: i64, mark: Option<u128>)
    requires p.IsOpen() && 0 < m.amm.baseAssetReserve + p.baseAssetAmount
    requires var direction := DirectionToClose(p.baseAssetAmount);
             && Reduce(direction, quote, collateral, m, p, now, mark).Ok?
             && var p' := Reduce(direction, quote, collateral, m, p, now, mark).value.1;
                if p.baseAssetAmount > 0 then p'.baseAssetAmount > 0 else p'.baseAssetAmount < 0
    ensures var direction := DirectionToClose(p.baseAssetAmount);
            var (m', p', _, _) := Reduce(direction, quote, collateral, m, p, now, mark).value;
            && 0 < m.amm.pegMultiplier
            && m'.amm.baseAssetReserve + p'.baseAssetAmount == m.amm.baseAssetReserve + p.baseAssetAmount
            && ReducePnl(p'.baseAssetAmount, quote, p.quoteAssetAmount - p'.quoteAssetAmount).Ok?
            && var realised := ReducePnl(p'.baseAssetAmount, quote, p.quoteAssetAmount - p'.quoteAssetAmount).value;
               var change := realised + Profit(m'.amm, p'.baseAssetAmount, p'.quoteAssetAmount)
                           - Profit(m.amm, p.baseAssetAmount, p.quoteAssetAmount);
               if p.baseAssetAmount > 0 then 0 <= change <= Slack(m.amm.pegMultiplier)
               else 0 - Slack(m.amm.pegMultiplier) <= change <= 0
  {
    var direction := DirectionToClose(p.baseAssetAmount);
    ReduceShape(direction, quote, collateral, m, p, now, mark);
    ReduceMovesValue(quote, collateral, m, p, now, mark);
    var (m', p', _, _) := Reduce(direction, quote, collateral, m, p, now, mark).value;
    RealisedCancels(p.baseAssetAmount, p'.baseAssetAmount, p.quoteAssetAmount, p'.quoteAssetAmount,
                    Value(m.amm, p.baseAssetAmount), Value(m'.amm, p'.baseAssetAmount), quote,
                    Slack(m.amm.pegMultiplier));
  }

  /** A short that a reduction leaves flat: the whole entry notional is realised, and the profit
      beyond the valuation is the value that was not paid, plus the unit charged to shorts. */
  lemma ReduceToFlatEquity(quote: u128, collateral: u128, m: Market, p: Position, now: i64, mark: Option<u128>)
    requires p.IsOpen() && 0 < m.amm.baseAssetReserve + p.baseAssetAmount
    requires var direction := DirectionToClose(p.baseAssetAmount);
             && Reduce(direction, quote, collateral, m, p, now, mark).Ok?
             && !Reduce(direction, quote, collateral, m, p, now, mark).value.1.IsOpen()
    requires p.baseAssetAmount < 0
    ensures var p' := Reduce(Long, quote, collateral, m, p, now, mark).value.1;
            && p'.quoteAssetAmount == 0
            && ReducePnl(0, quote, p.quoteAssetAmount) == Ok(p.quoteAssetAmount - quote)
            && p.quoteAssetAmount - quote
               == Profit(m.amm, p.baseAssetAmount, p.quoteAssetAmount) + (Value(m.amm, p.baseAssetAmount) - quote) + 1
  {
    ReduceShape(Long, quote, collateral, m, p, now, mark);
    FloorShift(0, Abs(p.baseAssetAmount), p.quoteAssetAmount);
  }

  // ----- Opening

  /** Pricing the market needs a positive base reserve, so every trade that prices it has one. */
  lemma PricedReserve(a: Amm, quote: u128, direction: SwapDirection, now: i64)
    requires SwapQuoteAsset(a, quote, direction, now, None).Ok?
    ensures 0 < a.baseAssetReserve
  {
    assert NewMarkTwap(a, now, None).Ok?;
    assert MarkPrice(a).Ok?;
  }

  predicate OnSide(direction: PositionDirection, base: int) {
    if direction.Long? then 0 < base else base < 0
  }

  /** A fresh position is worth no more than was paid for it. */
  lemma OpeningProfit(direction: PositionDirection, quote: u128, m: Market, p: Position, now: i64)
    requires TightCurve(m.amm) && 1 <= m.amm.minimumTradeSize
    requires !p.IsOpen() && p.quoteAssetAmount == 0
    requires Increase(direction, quote, m, p, now).Ok?
    requires Increase(direction, quote, m, p, now).value.1.IsOpen()
    ensures var (m', p', _) := Increase(direction, quote, m, p, now).value;
            && 0 < m.amm.pegMultiplier && 0 < m.amm.baseAssetReserve
            && OnSide(direction, p'.baseAssetAmount)
            && m'.amm.baseAssetReserve + p'.baseAssetAmount == m.amm.baseAssetReserve
            && Profit(m'.amm, p'.baseAssetAmount, p'.quoteAssetAmount)
               <= (if direction.Long? then 0 else Slack(m.amm.pegMultiplier) - 1)
  {
    IncreaseShape(direction, quote, m, p, now);
    SwapQuoteShape(m.amm, quote, QuoteSwapDirection(direction), now, None);
    PricedReserve(m.amm, quote, QuoteSwapDirection(direction), now);
    AcquiredSign(m.amm, quote, QuoteSwapDirection(direction), now, None);
    var (m', p', _) := Increase(direction, quote, m, p, now).value;
    TerminalAbove(m.amm);
    OpeningValue(m.amm, m'.amm, p'.baseAssetAmount, quote);
  }

  lemma TerminalAbove(a: Amm)
    requires TightCurve(a) && 0 < a.baseAssetReserve
    ensures a.quoteAssetReserve <= TerminalQuote(a, 0)
  {
    RemoveRaisesOutput(a.baseAssetReserve, a.quoteAssetReserve, a.sqrtK, 0);
  }

  lemma OpeningValue(a: Amm, a': Amm, base': int, quote: nat)
    requires 0 < a.pegMultiplier == a'.pegMultiplier && a'.sqrtK == a.sqrtK && base' != 0
    requires 0 < a.baseAssetReserve == a'.baseAssetReserve + base'
    requires a.quoteAssetReserve <= TerminalQuote(a, 0)
    requires var r := Reserves(quote, a.pegMultiplier);
             a'.quoteAssetReserve == a.quoteAssetReserve + (if base' > 0 then r else 0 - r)
    ensures if base' > 0 then Value(a', base') <= quote else quote - Slack(a.pegMultiplier) <= Value(a', base')
  {
    var z, peg, r := TerminalQuote(a, 0), a.pegMultiplier, Reserves(quote, a.pegMultiplier);
    assert TerminalQuote(a', base') == z;
    MoreRaw(0, quote, peg);
    if base' > 0 {
      MulMono(a'.quoteAssetReserve - z, r, peg);
      FloorMono(RawValue(a', base'), r * peg, QUOTE_UNIT);
    } else {
      MulMono(r, z - a'.quoteAssetReserve, peg);
      FloorMono(r * peg, RawValue(a', base'), QUOTE_UNIT);
    }
  }

  // ----- Runs of one user's trades

  datatype Trade =
    | Grow(quote: u128, now: i64)
    | Shrink(quote: u128, now: i64, mark: Option<u128>)

  /** A user trading alone: his market and position, and the profit he has realised so far. */
  datatype Solo = Solo(market: Market, position: Position, collateral: u128, realised: int)

  function Opposite(direction: PositionDirection): PositionDirection {
    if direction.Long? then Short else Long
  }

  /** One further trade that keeps the position open; a reduction is guarded as in the program. */
  function SoloTrade(side: PositionDirection, s: Solo, t: Trade): Result<Solo> {
    match t
    case Grow(quote, now) =>
      var (m, p, _) :- Increase(side, quote, s.market, s.position, now);
      Ok(s.(market := m, position := p))
    case Shrink(quote, now, mark) =>
      var (value, _) :- ValueAndPnl(s.position.baseAssetAmount, s.position.quoteAssetAmount, s.market.amm);
      var _ :- Need(quote < value, MathError);
      var (m, p, collateral, _) :- Reduce(Opposite(side), quote, s.collateral, s.market, s.position, now, mark);
      var _ :- Need(p.IsOpen(), MathError);
      var pnl :- ReducePnl(p.baseAssetAmount, quote, s.position.quoteAssetAmount - p.quoteAssetAmount);
      Ok(Solo(m, p, collateral, s.realised + pnl))
  }

  function SoloRun(side: PositionDirection, s: Solo, trades: seq<Trade>): Result<Solo> {
    if trades == [] then Ok(s) else
      var before :- SoloRun(side, s, trades[..|trades| - 1]);
      SoloTrade(side, before, trades[|trades| - 1])
  }

  /** Whether the rounding of a trade can favour the user: reducing a long, increasing a short. */
  predicate Favourable(side: PositionDirection, t: Trade) {
    side.Long? == t.Shrink?
  }

  /** The slack, once for every favourable trade. */
  function Allowance(side: PositionDirection, trades: seq<Trade>, slack: nat): nat {
    if trades == [] then 0 else
      Allowance(side, trades[..|trades| - 1], slack)
      + (if Favourable(side, trades[|trades| - 1]) then slack else 0)
  }

  lemma {:induction false} AllowanceBound(side: PositionDirection, trades: seq<Trade>, slack: nat)
    ensures Allowance(side, trades, slack) <= |trades| * slack
  {
    if trades != [] {
      AllowanceBound(side, trades[..|trades| - 1], slack);
      assert |trades| * slack == (|trades| - 1) * slack + slack;
    }
  }

  /** What every trade of a run keeps: a tight curve, an open position on its side, a live terminal reserve. */
  predicate Running(side: PositionDirection, s: Solo) {
    && TightCurve(s.market.amm)
    && 1 <= s.market.amm.minimumTradeSize
    && 0 < s.market.amm.pegMultiplier
    && OnSide(side, s.position.baseAssetAmount)
    && 0 < s.market.amm.baseAssetReserve + s.position.baseAssetAmount
  }

  function TotalProfit(s: Solo): int
    requires 0 < s.market.amm.baseAssetReserve + s.position.baseAssetAmount
  {
    s.realised + Profit(s.market.amm, s.position.baseAssetAmount, s.position.quoteAssetAmount)
  }

  lemma GrowKeepsRunning(side: PositionDirection, s: Solo, quote: u128, now: i64)
    requires Running(side, s) && SoloTrade(side, s, Grow(quote, now)).Ok?
    ensures var s' := SoloTrade(side, s, Grow(quote, now)).value;
            && Running(side, s') && s'.market.amm.pegMultiplier == s.market.amm.pegMultiplier
            && TotalProfit(s') <= TotalProfit(s) + (if side.Long? then 0 else Slack(s.market.amm.pegMultiplier))
  {
    if quote != 0 {
      IncreaseShape(side, quote, s.market, s.position, now);
      SwapQuoteShape(s.market.amm, quote, QuoteSwapDirection(side), now, None);
      AcquiredSign(s.market.amm, quote, QuoteSwapDirection(side), now, None);
      IncreaseEquity(side, quote, s.market, s.position, now);
    }
  }

  lemma ShrinkKeepsRunning(side: PositionDirection, s: Solo, quote: u128, now: i64, mark: Option<u128>)
    requires Running(side, s) && SoloTrade(side, s, Shrink(quote, now, mark)).Ok?
    ensures var s' := SoloTrade(side, s, Shrink(quote, now, mark)).value;
            && Running(side, s') && s'.market.amm.pegMultiplier == s.market.amm.pegMultiplier
            && TotalProfit(s') <= TotalProfit(s) + (if side.Long? then Slack(s.market.amm.pegMultiplier) else 0)
  {
    NoSignFlip(quote, s.collateral, s.market, s.position, now, mark);
    ReduceShape(Opposite(side), quote, s.collateral, s.market, s.position, now, mark);
    SwapQuoteShape(s.market.amm, quote, QuoteSwapDirection(Opposite(side)), now, mark);
    ReduceEquity(quote, s.collateral, s.market, s.position, now, mark);
  }

  lemma TradeKeepsRunning(side: PositionDirection, s: Solo, t: Trade)
    requires Running(side, s) && SoloTrade(side, s, t).Ok?
    ensures var s' := SoloTrade(side, s, t).value;
            && Running(side, s') && s'.market.amm.pegMultiplier == s.market.amm.pegMultiplier
            && TotalProfit(s') <= TotalProfit(s) + (if Favourable(side, t) then Slack(s.market.amm.pegMultiplier) else 0)
  {
    match t
    case Grow(quote, now) => GrowKeepsRunning(side, s, quote, now);
    case Shrink(quote, now, mark) => ShrinkKeepsRunning(side, s, quote, now, mark);
  }

  lemma {:induction false} RunProfit(side: PositionDirection, s: Solo, trades: seq<Trade>)
    requires Running(side, s) && SoloRun(side, s, trades).Ok?
    ensures var s' := SoloRun(side, s, trades).value;
            && Running(side, s') && s'.market.amm.pegMultiplier == s.market.amm.pegMultiplier
            && TotalProfit(s') <= TotalProfit(s) + Allowance(side, trades, Slack(s.market.amm.pegMultiplier))
  {
    if trades != [] {
      var rest, last := trades[..|trades| - 1], trades[|trades| - 1];
      RunProfit(side, s, rest);
      var before := SoloRun(side, s, rest).value;
      TradeKeepsRunning(side, before, last);
    }
  }

  /** No profit from rounding. From any tight curve: open with any notional, trade any number of
      times with the position kept open, close. Before fees, everything realised adds up to at most
      the slack per favourable trade, plus, for a short, what opening itself can give. */
  lemma NoProfitFromRounding(side: PositionDirection, quote: u128, collateral: u128, m: Market, p: Position,
                             openedAt: i64, trades: seq<Trade>, closedAt: i64)
    requires TightCurve(m.amm) && 1 <= m.amm.minimumTradeSize
    requires !p.IsOpen() && p.quoteAssetAmount == 0
    requires Increase(side, quote, m, p, openedAt).Ok? && Increase(side, quote, m, p, openedAt).value.1.IsOpen()
    requires var (m1, p1, _) := Increase(side, quote, m, p, openedAt).value;
             && SoloRun(side, Solo(m1, p1, collateral, 0), trades).Ok?
             && var s := SoloRun(side, Solo(m1, p1, collateral, 0), trades).value;
                Close(s.collateral, s.market, s.position, closedAt).Ok?
    ensures 0 < m.amm.pegMultiplier
    ensures var (m1, p1, _) := Increase(side, quote, m, p, openedAt).value;
            var s := SoloRun(side, Solo(m1, p1, collateral, 0), trades).value;
            && ValueAndPnl(s.position.baseAssetAmount, s.position.quoteAssetAmount, s.market.amm).Ok?
            && var (_, pnl) := ValueAndPnl(s.position.baseAssetAmount, s.position.quoteAssetAmount, s.market.amm).value;
               && UpdatedCollateral(s.collateral, pnl) == Ok(Close(s.collateral, s.market, s.position, closedAt).value.2)
               && s.realised + pnl <= Allowance(side, trades, Slack(m.amm.pegMultiplier))
                                      + (if side.Long? then 0 else Slack(m.amm.pegMultiplier) - 1)
               && (m.amm.pegMultiplier <= QUOTE_UNIT ==> s.realised + pnl <= |trades|)
  {
    OpeningProfit(side, quote, m, p, openedAt);
    IncreaseShape(side, quote, m, p, openedAt);
    SwapQuoteShape(m.amm, quote, QuoteSwapDirection(side), openedAt, None);
    var (m1, p1, _) := Increase(side, quote, m, p, openedAt).value;
    var start := Solo(m1, p1, collateral, 0);
    RunProfit(side, start, trades);
    var s := SoloRun(side, start, trades).value;
    CloseRealisesValuation(s.collateral, s.market, s.position, closedAt);
    ValueShape(s.position.baseAssetAmount, s.position.quoteAssetAmount, s.market.amm);
    AllowanceBound(side, trades, Slack(m.amm.pegMultiplier));
    if m.amm.pegMultiplier <= QUOTE_UNIT {
      SlackOfUsualPeg(m.amm.pegMultiplier);
      MulMono(Slack(m.amm.pegMultiplier), 1, |trades|);
    }
  }
}
