/** What the floors of a trade can and cannot do to a user's equity: no sign flips, no profit from
    opening and closing, and at most a unit of drift per trade. */
module Rounding {
  import opened Numeric
  import opened State
  import opened Curve
  import opened Trading
  import opened Shapes

  /** The quote reserve the curve would have if only this position were closed. */
  function TerminalQuote(a: Amm, base: int): nat
    requires 0 < a.baseAssetReserve + base
  {
    a.sqrtK * a.sqrtK / (a.baseAssetReserve + base)
  }

  /** A position's value in 1/QUOTE_UNIT of a quote unit, before the last floor. */
  function RawValue(a: Amm, base: int): int
    requires 0 < a.baseAssetReserve + base
  {
    (if base > 0 then a.quoteAssetReserve - TerminalQuote(a, base) else TerminalQuote(a, base) - a.quoteAssetReserve)
    * a.pegMultiplier
  }

  lemma ValueShape(base: i128, entry: u128, a: Amm)
    requires base != 0 && ValueAndPnl(base, entry, a).Ok?
    ensures var (value, pnl) := ValueAndPnl(base, entry, a).value;
            && 0 < a.baseAssetReserve + base
            && TerminalQuote(a, base) < 0x1_0000_0000_0000_0000_0000_0000_0000_0000
            && 0 <= RawValue(a, base) < 0x1_0000_0000_0000_0000_0000_0000_0000_0000
            && value == RawValue(a, base) / QUOTE_UNIT
            && pnl == (if base > 0 then value - entry else entry - value - 1)
  {
  }

  // ----- Curve facts

  /** TightCurve is kept by every quote swap, whatever the state before it. */
  lemma SwapQuoteKeepsTight(a: Amm, quote: u128, direction: SwapDirection, now: i64, mark: Option<u128>)
    requires SwapQuoteAsset(a, quote, direction, now, mark).Ok?
    ensures TightCurve(SwapQuoteAsset(a, quote, direction, now, mark).value.0)
  {
    SwapQuoteShape(a, quote, direction, now, mark);
  }

  lemma SwapBaseKeepsTight(a: Amm, base: u128, direction: SwapDirection, now: i64)
    requires SwapBaseAsset(a, base, direction, now).Ok?
    ensures TightCurve(SwapBaseAsset(a, base, direction, now).value.0)
  {
    SwapBaseShape(a, base, direction, now);
  }

  /** On a tight curve the reserve change that values a position is never negative. */
  lemma RawValueNonnegative(a: Amm, base: i128)
    requires TightCurve(a) && base != 0 && 0 < a.baseAssetReserve + base
    ensures if base > 0 then TerminalQuote(a, base) <= a.quoteAssetReserve
            else a.quoteAssetReserve <= TerminalQuote(a, base)
    ensures 0 <= RawValue(a, base)
  {
    if base > 0 {
      AddLowersOutput(a.baseAssetReserve, a.quoteAssetReserve, a.sqrtK, base);
      MulMono(0, a.quoteAssetReserve - TerminalQuote(a, base), a.pegMultiplier);
    } else {
      RemoveRaisesOutput(a.baseAssetReserve, a.quoteAssetReserve, a.sqrtK, 0 - base);
      MulMono(0, TerminalQuote(a, base) - a.quoteAssetReserve, a.pegMultiplier);
    }
  }

  /** Valuing never underflows: on a tight curve, once the swap that would close a position is
      possible, valuing it fails only where its product with the peg leaves u128. */
  lemma ValuingNeverUnderflows(a: Amm, base: i128)
    requires TightCurve(a) && base != 0
    requires SwapOutput(Abs(base), a.baseAssetReserve, SwapDirectionToClose(base), a.sqrtK).Ok?
    ensures 0 < a.baseAssetReserve + base
    ensures var quote' := SwapOutput(Abs(base), a.baseAssetReserve, SwapDirectionToClose(base), a.sqrtK).value.0;
            QuoteSwapped(a.quoteAssetReserve, quote', SwapDirectionToClose(base), a.pegMultiplier)
            == if RawValue(a, base) < 0x1_0000_0000_0000_0000_0000_0000_0000_0000
               then Ok(RawValue(a, base) / QUOTE_UNIT) else Err(MathError)
  {
    SwapShape(Abs(base), a.baseAssetReserve, SwapDirectionToClose(base), a.sqrtK);
    RawValueNonnegative(a, base);
  }

  /** A trade never moves a position against its direction: buying acquires base, selling gives it. */
  lemma AcquiredSign(a: Amm, quote: u128, direction: SwapDirection, now: i64, mark: Option<u128>)
    requires TightCurve(a) && 1 <= a.minimumTradeSize
    requires SwapQuoteAsset(a, quote, direction, now, mark).Ok?
    ensures var acquired := SwapQuoteAsset(a, quote, direction, now, mark).value.1;
            if direction.Add? then 0 <= acquired else acquired <= 0
  {
    SwapQuoteShape(a, quote, direction, now, mark);
    TightSymmetric(a.baseAssetReserve, a.quoteAssetReserve, a.sqrtK);
    var r := Reserves(quote, a.pegMultiplier);
    if direction.Add? {
      AddLowersOutput(a.quoteAssetReserve, a.baseAssetReserve, a.sqrtK, r);
    } else {
      RemoveRaisesOutput(a.quoteAssetReserve, a.baseAssetReserve, a.sqrtK, r);
    }
  }

  // ----- No sign flip

  /** A quote amount below a value converts to fewer reserves than the value came from. */
  lemma FewerReserves(quote: nat, change: nat, peg: int)
    requires 0 < peg && quote < change * peg / QUOTE_UNIT
    ensures Reserves(quote, peg) < change
  {
    FloorAtLeast(change * peg, QUOTE_UNIT, quote + 1);
    assert quote * QUOTE_UNIT < change * peg;
    FloorAtLeast(quote * QUOTE_UNIT, peg, change);
  }

  lemma LongStaysLong(k: nat, base: nat, quote: nat, size: nat, r: nat)
    requires 1 <= size && r < quote - k / (base + size)
    ensures k / (quote - r) < base + size
  {
    var z := k / (base + size);
    FloorBounds(k, base + size);
    assert (z + 1) * (base + size) == z * (base + size) + (base + size);
    MulMono(z + 1, quote - r, base + size);
    FloorAtLeast(k, quote - r, base + size);
    assert (base + size) * (quote - r) == (quote - r) * (base + size);
  }

  lemma ShortStaysShort(k: nat, base: nat, quote: nat, size: nat, r: nat)
    requires size < base && r < k / (base - size) - quote && 0 < quote + r
    ensures base - size <= k / (quote + r)
  {
    var z := k / (base - size);
    FloorBounds(k, base - size);
    MulMono(quote + r, z, base - size);
    FloorAtLeast(k, quote + r, base - size);
    assert (base - size) * (quote + r) == (quote + r) * (base - size);
  }

  /** Selling for less than a long is worth sells less base than the long has. */
  lemma SellingStaysLong(a: Amm, base: nat, quote: u128, now: i64, mark: Option<u128>)
    requires SwapQuoteAsset(a, quote, Remove, now, mark).Ok?
    requires 1 <= base && 0 < a.baseAssetReserve + base && quote < RawValue(a, base) / QUOTE_UNIT
    ensures 0 < base + SwapQuoteAsset(a, quote, Remove, now, mark).value.1
  {
    SwapQuoteShape(a, quote, Remove, now, mark);
    FewerReserves(quote, a.quoteAssetReserve - TerminalQuote(a, base), a.pegMultiplier);
    LongStaysLong(a.sqrtK * a.sqrtK, a.baseAssetReserve, a.quoteAssetReserve, base, Reserves(quote, a.pegMultiplier));
  }

  /** Buying for less than a short is worth buys at most the base the short owes. */
  lemma BuyingStaysShort(a: Amm, size: nat, quote: u128, now: i64, mark: Option<u128>)
    requires SwapQuoteAsset(a, quote, Add, now, mark).Ok?
    requires 1 <= size < a.baseAssetReserve && quote < RawValue(a, 0 - size) / QUOTE_UNIT
    ensures SwapQuoteAsset(a, quote, Add, now, mark).value.1 <= size
  {
    SwapQuoteShape(a, quote, Add, now, mark);
    FewerReserves(quote, TerminalQuote(a, 0 - size) - a.quoteAssetReserve, a.pegMultiplier);
    ShortStaysShort(a.sqrtK * a.sqrtK, a.baseAssetReserve, a.quoteAssetReserve, size, Reserves(quote, a.pegMultiplier));
  }

  /** No sign flip: reducing by less than the position's value leaves a long strictly long and a
      short short or flat. So the sign after the update, which picks the aggregate and the pnl
      formula, is the side of the position that was reduced. */
  lemma NoSignFlip(quote: u128, collateral: u128, m: Market, p: Position, now: i64, mark: Option<u128>)
    requires p.IsOpen() && ValueAndPnl(p.baseAssetAmount, p.quoteAssetAmount, m.amm).Ok?
    requires quote < ValueAndPnl(p.baseAssetAmount, p.quoteAssetAmount, m.amm).value.0
    requires Reduce(DirectionToClose(p.baseAssetAmount), quote, collateral, m, p, now, mark).Ok?
    ensures var p' := Reduce(DirectionToClose(p.baseAssetAmount), quote, collateral, m, p, now, mark).value.1;
            if p.baseAssetAmount > 0 then 0 < p'.baseAssetAmount else p'.baseAssetAmount <= 0
  {
    ValueShape(p.baseAssetAmount, p.quoteAssetAmount, m.amm);
    ReduceShape(DirectionToClose(p.baseAssetAmount), quote, collateral, m, p, now, mark);
    if p.baseAssetAmount > 0 {
      SellingStaysLong(m.amm, p.baseAssetAmount, quote, now, mark);
    } else {
      BuyingStaysShort(m.amm, 0 - p.baseAssetAmount, quote, now, mark);
    }
  }
}
