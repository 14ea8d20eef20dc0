/** Opening a position and closing it at once: when rounding pays for it, exactly. */
module RoundTrip {
  import opened Numeric
  import opened State
  import opened Curve
  import opened Twap
  import opened Trading
  import opened Shapes
  import opened Rounding
  import opened Equity
  import opened ClearingHouse
  import I = Instructions

  /** Whether the reserves a short gives back are worth less, to within a unit, than what it was
      opened with; it can be told from the curve before the trade. */
  predicate PaysShort(a: Amm, quote: int)
    requires 0 < a.baseAssetReserve && 0 < a.pegMultiplier && 0 <= quote
  {
    GivenBack(a, quote) < (quote - 1) * QUOTE_UNIT
  }

  /** What closing a short just opened takes, in 1/QUOTE_UNIT: the reserves it was opened with and what
      the curve was below its derived quote reserve. */
  function GivenBack(a: Amm, quote: int): int
    requires 0 < a.baseAssetReserve && 0 < a.pegMultiplier && 0 <= quote
  {
    (TerminalQuote(a, 0) - a.quoteAssetReserve + Reserves(quote, a.pegMultiplier)) * a.pegMultiplier
  }

  /** What a short earns that is opened with a quote amount and closed at once. */
  lemma ShortRoundTrip(quote: u128, collateral: u128, m: Market, p: Position, openedAt: i64, closedAt: i64)
    requires TightCurve(m.amm) && 1 <= m.amm.minimumTradeSize && !p.IsOpen() && p.quoteAssetAmount == 0
    requires Increase(Short, quote, m, p, openedAt).Ok? && Increase(Short, quote, m, p, openedAt).value.1.IsOpen()
    requires var (m1, p1, _) := Increase(Short, quote, m, p, openedAt).value; Close(collateral, m1, p1, closedAt).Ok?
    ensures 0 < m.amm.baseAssetReserve && 0 < m.amm.pegMultiplier
    ensures var (m1, p1, _) := Increase(Short, quote, m, p, openedAt).value;
            && ValueAndPnl(p1.baseAssetAmount, p1.quoteAssetAmount, m1.amm).Ok?
            && ValueAndPnl(p1.baseAssetAmount, p1.quoteAssetAmount, m1.amm).value.1
               == quote - GivenBack(m.amm, quote) / QUOTE_UNIT - 1
  {
    var (m1, p1, _) := Increase(Short, quote, m, p, openedAt).value;
    OpeningProfit(Short, quote, m, p, openedAt);
    IncreaseShape(Short, quote, m, p, openedAt);
    SwapQuoteShape(m.amm, quote, Remove, openedAt, None);
    CloseRealisesValuation(collateral, m1, p1, closedAt);
    ValueShape(p1.baseAssetAmount, p1.quoteAssetAmount, m1.amm);
    RawIsGivenBack(m.amm, m1.amm, p1.baseAssetAmount, quote);
  }

  /** The raw value of a short just opened. */
  lemma RawIsGivenBack(a: Amm, a': Amm, base': int, quote: nat)
    requires 0 < a.pegMultiplier == a'.pegMultiplier && a'.sqrtK == a.sqrtK && base' < 0
    requires 0 < a.baseAssetReserve == a'.baseAssetReserve + base'
    requires a'.quoteAssetReserve == a.quoteAssetReserve - Reserves(quote, a.pegMultiplier)
    ensures RawValue(a', base') == GivenBack(a, quote)
  {
    assert TerminalQuote(a', base') == TerminalQuote(a, 0);
  }

  /** Opening and closing at once pays if and only if it is a short and the reserves it is opened with
      lose more than a unit to the two floors. */
  lemma RoundTripPaysIff(side: PositionDirection, quote: u128, collateral: u128, m: Market, p: Position,
                         openedAt: i64, closedAt: i64)
    requires TightCurve(m.amm) && 1 <= m.amm.minimumTradeSize && !p.IsOpen() && p.quoteAssetAmount == 0
    requires Increase(side, quote, m, p, openedAt).Ok? && Increase(side, quote, m, p, openedAt).value.1.IsOpen()
    requires var (m1, p1, _) := Increase(side, quote, m, p, openedAt).value; Close(collateral, m1, p1, closedAt).Ok?
    ensures 0 < m.amm.baseAssetReserve && 0 < m.amm.pegMultiplier
    ensures var (m1, p1, _) := Increase(side, quote, m, p, openedAt).value;
            && ValueAndPnl(p1.baseAssetAmount, p1.quoteAssetAmount, m1.amm).Ok?
            && (0 < ValueAndPnl(p1.baseAssetAmount, p1.quoteAssetAmount, m1.amm).value.1
                <==> side.Short? && PaysShort(m.amm, quote))
  {
    if side.Short? {
      ShortRoundTrip(quote, collateral, m, p, openedAt, closedAt);
      FloorAtLeast(GivenBack(m.amm, quote), QUOTE_UNIT, quote - 1);
    } else {
      var (m1, p1, _) := Increase(side, quote, m, p, openedAt).value;
      OpeningProfit(side, quote, m, p, openedAt);
      CloseRealisesValuation(collateral, m1, p1, closedAt);
      ValueShape(p1.baseAssetAmount, p1.quoteAssetAmount, m1.amm);
    }
  }

  /** Where the quote reserve is the derived one, as on a fresh curve and after every close, a short
      pays exactly when the remainder of its conversion to reserves is more than a unit. */
  lemma PaysShortByRemainder(a: Amm, quote: nat)
    requires 0 < a.baseAssetReserve && 0 < a.pegMultiplier && a.quoteAssetReserve == TerminalQuote(a, 0)
    ensures PaysShort(a, quote) <==> quote * QUOTE_UNIT % a.pegMultiplier > QUOTE_UNIT
  {
    var peg := a.pegMultiplier;
    assert quote * QUOTE_UNIT == Reserves(quote, peg) * peg + quote * QUOTE_UNIT % peg;
  }

  /** So no amount pays up to a peg of 10^10 + 1, on any tight curve. */
  lemma NothingPaysAtUsualPegs(a: Amm, quote: nat)
    requires TightCurve(a) && 0 < a.baseAssetReserve && 0 < a.pegMultiplier <= QUOTE_UNIT + 1
    ensures !PaysShort(a, quote)
  {
    var peg := a.pegMultiplier;
    TerminalAbove(a);
    assert quote * QUOTE_UNIT == Reserves(quote, peg) * peg + quote * QUOTE_UNIT % peg;
    MulMono(Reserves(quote, peg), TerminalQuote(a, 0) - a.quoteAssetReserve + Reserves(quote, peg), peg);
  }

  // ----- A market in which it pays

  /** A fresh market whose peg is three times QUOTE_UNIT. */
  const HIGH_PEG_MARKET := Market(true, 0, 0, 0, 0,
    Amm(10_000_000_000_000, 10_000_000_000_000, 10_000_000_000_000, 30_000_000_000, 10_000_000,
        0, 0, 0, 0, 3600, 1, 1, 0, 300_000_000_000_000_000, 0, 0, 0, 0))

  lemma HighPegMarketIsFresh()
    ensures I.InitializeMarket(EMPTY_MARKET, 10_000_000_000_000, 10_000_000_000_000, 3600, 30_000_000_000, 0, 1, 1)
         == Ok(HIGH_PEG_MARKET)
  {
    assert CalculatePrice(10_000_000_000_000, 10_000_000_000_000, 30_000_000_000) == Ok(300_000_000_000_000_000);
  }

  const OPENED_MARKET := HIGH_PEG_MARKET.(baseAssetAmountShort := -10_000_010, baseAssetAmount := -10_000_010,
    openInterest := 1,
    amm := HIGH_PEG_MARKET.amm.(baseAssetReserve := 10_000_010_000_010, quoteAssetReserve := 9_999_990_000_000))

  const OPENED_SHORT := Position(0, -10_000_010, 30_000_002, 0, 0)

  lemma HighPegShortOpens()
    ensures Increase(Short, 30_000_002, HIGH_PEG_MARKET, EMPTY_POSITION, 0)
         == Ok((OPENED_MARKET, OPENED_SHORT, -10_000_010))
  {
    var a := HIGH_PEG_MARKET.amm;
    assert NewMarkTwap(a, 0, None) == Ok(300_000_000_000_000_000);
    assert AssetToReserve(30_000_002, 30_000_000_000) == Ok(10_000_000);
    assert SwapOutput(10_000_000, 10_000_000_000_000, Remove, 10_000_000_000_000)
        == Ok((10_000_010_000_010, 9_999_990_000_000));
  }

  /** Beyond the usual pegs it does pay: in a fresh market at a peg of three times QUOTE_UNIT, shorting
      30_000_002 and closing at once earns one. */
  lemma HighPegPaysShorts()
    ensures PaysShort(HIGH_PEG_MARKET.amm, 30_000_002)
    ensures Increase(Short, 30_000_002, HIGH_PEG_MARKET, EMPTY_POSITION, 0) == Ok((OPENED_MARKET, OPENED_SHORT, -10_000_010))
    ensures Close(0, OPENED_MARKET, OPENED_SHORT, 0).Ok? && Close(0, OPENED_MARKET, OPENED_SHORT, 0).value.2 == 1
  {
    PaysShortByRemainder(HIGH_PEG_MARKET.amm, 30_000_002);
    HighPegShortOpens();
    HighPegShortCloses();
  }

  lemma HighPegShortCloses()
    ensures Close(0, OPENED_MARKET, OPENED_SHORT, 0).Ok? && Close(0, OPENED_MARKET, OPENED_SHORT, 0).value.2 == 1
  {
    assert MarkPrice(OPENED_MARKET.amm) == Ok(299_999_400_000_300_000);
    assert SwapOutput(10_000_010, 10_000_010_000_010, Remove, 10_000_000_000_000)
        == Ok((10_000_000_000_000, 10_000_000_000_000));
  }
}
