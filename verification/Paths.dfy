/** Path independence: no trade moves the price a market would end at, and the order in which
    positions are closed does not matter. */
module Paths {
  import opened Numeric
  import opened State
  import opened Curve
  import opened Trading
  import opened Shapes
  import opened ClearingHouse
  import opened Invariants
  import opened Runs

  // ----- The terminal price

  /** The terminal price depends on the base reserve with the net position added back, the root and
      the peg. */
  lemma TerminalPriceFromTotal(m: Market)
    requires 0 <= m.amm.baseAssetReserve + m.baseAssetAmount < 0x1_0000_0000_0000_0000_0000_0000_0000_0000
    ensures TerminalPrice(m) == TerminalPriceAt(m.amm.baseAssetReserve + m.baseAssetAmount, m.amm.sqrtK, m.amm.pegMultiplier)
  {
  }

  function TerminalPriceAt(total: u128, sqrtK: u128, peg: u128): Result<u128> {
    var (quote, base) :- SwapOutput(0, total, Add, sqrtK);
    CalculatePrice(quote, base, peg)
  }

  /** No trade moves the terminal price, and none makes it fail or stop failing. */
  lemma TradeKeepsTerminalPrice(m: Market, p: Position, m': Market, p': Position)
    requires SoundTrade(m, p, m', p')
    ensures TerminalPrice(m') == TerminalPrice(m)
  {
    var total := m.amm.baseAssetReserve + m.baseAssetAmount;
    if 0 <= total < 0x1_0000_0000_0000_0000_0000_0000_0000_0000 {
      TerminalPriceFromTotal(m);
      TerminalPriceFromTotal(m');
    }
  }

  /** A market at its root ends at the peg, or at the overflow its initial price would have met. */
  lemma TerminalPriceIsPeg(m: Market)
    requires CurveSound(m) && m.initialized
    ensures var s, peg := m.amm.sqrtK, m.amm.pegMultiplier;
            && TerminalPrice(m) == CalculatePrice(s, s, peg)
            && (TerminalPrice(m).Ok? ==> TerminalPrice(m).value == peg * PRICE_TO_PEG_PRECISION_RATIO)
  {
    var s, peg := m.amm.sqrtK, m.amm.pegMultiplier;
    TerminalPriceFromTotal(m);
    SwapAtRoot(s);
    EqualReservesPrice(s, peg);
  }

  /** Re-deriving a reserve at the root gives the root. */
  lemma SwapAtRoot(s: u128)
    requires 0 < s && FitU192(s * s).Ok?
    ensures SwapOutput(0, s, Add, s) == Ok((s, s))
  {
    FloorUnique(s * s, s, s);
  }

  /** Equal reserves are priced at the peg. */
  lemma EqualReservesPrice(s: u128, peg: u128)
    requires 0 < s
    ensures CalculatePrice(s, s, peg).Ok? ==> CalculatePrice(s, s, peg).value == peg * PRICE_TO_PEG_PRECISION_RATIO
  {
    assert s * peg * PRICE_TO_PEG_PRECISION_RATIO == peg * PRICE_TO_PEG_PRECISION_RATIO * s;
    FloorUnique(s * peg * PRICE_TO_PEG_PRECISION_RATIO, s, peg * PRICE_TO_PEG_PRECISION_RATIO);
  }

  /** In every state of every run, every live market would end at its peg. */
  lemma TerminalPriceInEveryRun(events: seq<Event>, i: nat)
    requires CleanRun(Genesis(), events) && i < MARKETS
    ensures var h := Run(Genesis(), events);
            && |h.markets| == MARKETS
            && var m := h.markets[i];
               m.initialized && TerminalPrice(m).Ok? ==>
                 TerminalPrice(m).value == m.amm.pegMultiplier * PRICE_TO_PEG_PRECISION_RATIO
  {
    RunSound(events);
    var m := Run(Genesis(), events).markets[i];
    if m.initialized {
      TerminalPriceIsPeg(m);
    }
  }

  // ----- Closing in any order

  /** A position, the collateral of its owner and the time it is closed. */
  datatype Closing = Closing(position: Position, collateral: u128, now: i64)

  function CloseAll(m: Market, closings: seq<Closing>): Result<Market> {
    if closings == [] then Ok(m) else
      var n := |closings| - 1;
      var before :- CloseAll(m, closings[..n]);
      var (after, _, _, _) :- Close(closings[n].collateral, before, closings[n].position, closings[n].now);
      Ok(after)
  }

  /** The base amounts of the positions closed. */
  function Bases(closings: seq<Closing>): (bases: seq<int>)
    ensures |bases| == |closings|
  {
    if closings == [] then [] else
      Bases(closings[..|closings| - 1]) + [closings[|closings| - 1].position.baseAssetAmount]
  }

  function Sum(xs: seq<int>): int {
    if xs == [] then 0 else Sum(xs[..|xs| - 1]) + xs[|xs| - 1]
  }

  predicate AllZero(xs: seq<int>) {
    forall x :: x in xs ==> x == 0
  }

  lemma LastBase(closings: seq<Closing>)
    requires closings != []
    ensures var n := |closings| - 1;
            var base := closings[n].position.baseAssetAmount;
            && Sum(Bases(closings)) == Sum(Bases(closings[..n])) + base
            && (AllZero(Bases(closings)) <==> AllZero(Bases(closings[..n])) && base == 0)
  {
    var n := |closings| - 1;
    Snoc(Bases(closings[..n]), closings[n].position.baseAssetAmount);
  }

  lemma Snoc(xs: seq<int>, x: int)
    ensures Sum(xs + [x]) == Sum(xs) + x
    ensures AllZero(xs + [x]) <==> AllZero(xs) && x == 0
  {
    assert (xs + [x])[..|xs|] == xs;
    var all := xs + [x];
    if AllZero(all) {
      assert all[|xs|] in all;
      forall y | y in xs ensures y == 0 {
        var i :| 0 <= i < |xs| && xs[i] == y;
        assert all[i] in all;
      }
    }
  }

  /** Where a close ends: the base reserve takes the position in, the quote reserve follows. */
  lemma CloseEnds(collateral: u128, m: Market, p: Position, now: i64)
    requires Close(collateral, m, p, now).Ok?
    ensures var a := Close(collateral, m, p, now).value.0.amm;
            && a.sqrtK == m.amm.sqrtK
            && a.baseAssetReserve == m.amm.baseAssetReserve + p.baseAssetAmount
            && (p.IsOpen() ==> 0 < a.baseAssetReserve && a.quoteAssetReserve == a.sqrtK * a.sqrtK / a.baseAssetReserve)
            && (!p.IsOpen() ==> a.quoteAssetReserve == m.amm.quoteAssetReserve)
  {
    if p.IsOpen() {
      CloseShape(collateral, m, p, now);
      SwapBaseShape(m.amm, Abs(p.baseAssetAmount), SwapDirectionToClose(p.baseAssetAmount), now);
    }
  }

  /** Where a run of closes ends: on the sum of the bases, with the quote reserve the curve gives. */
  lemma {:induction false} CloseAllEnds(m: Market, closings: seq<Closing>)
    requires CloseAll(m, closings).Ok?
    ensures var a := CloseAll(m, closings).value.amm;
            && a.sqrtK == m.amm.sqrtK
            && a.baseAssetReserve == m.amm.baseAssetReserve + Sum(Bases(closings))
            && (if AllZero(Bases(closings)) then a.quoteAssetReserve == m.amm.quoteAssetReserve
                else 0 < a.baseAssetReserve && a.quoteAssetReserve == a.sqrtK * a.sqrtK / a.baseAssetReserve)
  {
    if closings != [] {
      var n := |closings| - 1;
      CloseAllEnds(m, closings[..n]);
      CloseEnds(closings[n].collateral, CloseAll(m, closings[..n]).value, closings[n].position, closings[n].now);
      LastBase(closings);
    }
  }

  lemma {:induction false} SumOfMiddle(xs: seq<int>, x: int, ys: seq<int>)
    ensures Sum(xs + [x] + ys) == x + Sum(xs + ys)
  {
    if ys == [] {
      assert xs + [x] + ys == xs + [x];
      assert xs + ys == xs;
    } else {
      var n := |ys| - 1;
      SumOfMiddle(xs, x, ys[..n]);
      assert (xs + [x] + ys)[..|xs| + 1 + n] == xs + [x] + ys[..n];
      assert (xs + ys)[..|xs| + n] == xs + ys[..n];
    }
  }

  /** A sum does not depend on the order. */
  lemma {:induction false} SumOfPermutation(xs: seq<int>, ys: seq<int>)
    requires multiset(xs) == multiset(ys)
    ensures Sum(xs) == Sum(ys)
  {
    if xs == [] {
      assert |multiset(ys)| == 0;
    } else {
      var n := |xs| - 1;
      var x := xs[n];
      assert x in multiset(ys);
      var k :| 0 <= k < |ys| && ys[k] == x;
      var front, back := ys[..k], ys[k + 1..];
      assert xs == xs[..n] + [x];
      assert ys == front + [x] + back;
      assert multiset(xs) == multiset(xs[..n]) + multiset{x};
      assert multiset(ys) == multiset(front) + multiset{x} + multiset(back);
      assert multiset(xs[..n]) == multiset(xs) - multiset{x};
      assert multiset(front + back) == multiset(front) + multiset(back) == multiset(ys) - multiset{x};
      SumOfPermutation(xs[..n], front + back);
      SumOfMiddle(front, x, back);
    }
  }

  lemma SameMembers(xs: seq<int>, ys: seq<int>)
    requires multiset(xs) == multiset(ys)
    ensures AllZero(xs) == AllZero(ys)
  {
    assert forall x :: x in xs <==> x in multiset(xs);
    assert forall x :: x in ys <==> x in multiset(ys);
  }

  /** Path independence: closing the same positions in two orders, if both succeed, ends on the
      same two reserves. */
  lemma ClosesCommute(m: Market, one: seq<Closing>, other: seq<Closing>)
    requires CloseAll(m, one).Ok? && CloseAll(m, other).Ok?
    requires multiset(Bases(one)) == multiset(Bases(other))
    ensures var a, b := CloseAll(m, one).value.amm, CloseAll(m, other).value.amm;
            a.baseAssetReserve == b.baseAssetReserve && a.quoteAssetReserve == b.quoteAssetReserve
  {
    CloseAllEnds(m, one);
    CloseAllEnds(m, other);
    SumOfPermutation(Bases(one), Bases(other));
    SameMembers(Bases(one), Bases(other));
  }
}
