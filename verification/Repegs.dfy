/** Which repegs are accepted, in prices: those that move the market toward its oracle, stop outside the
    oracle's confidence band, and can be paid for. */
module Repegs {
  import opened Numeric
  import opened State
  import opened Curve
  import opened Invariants
  import I = Instructions
  import Paths

  /** The market at another peg. */
  function AtPeg(m: Market, peg: u128): Market {
    m.(amm := m.amm.(pegMultiplier := peg))
  }

  /** A terminal price that moved from before to after: it moved toward the oracle's price and not past
      it, it is no nearer to it than the confidence unless it is there, and the mark price is not past
      the far edge of the band. */
  predicate TowardOracle(before: int, after: int, price: int, confidence: int, mark: int) {
    || after == price
    || (before <= after <= price - confidence && after < price && mark <= price + confidence)
    || (price + confidence <= after <= before && price < after && price - confidence <= mark)
  }

  /** The pool can pay the cost of a repeg, or hold its gain. */
  predicate Payable(a: Amm, cost: int) {
    if cost > 0 then Max(a.totalFeeMinusDistributions - cost, 0) >= a.totalFee / 2
    else a.totalFeeMinusDistributions - cost < 0x1_0000_0000_0000_0000_0000_0000_0000_0000
  }

  /** The prices of a repeg exist and its cost can be computed; the oracle's band is one of prices. */
  predicate Computable(m: Market, newPeg: u128, oraclePrice: i128, confidence: u128, valid: bool) {
    && newPeg != m.amm.pegMultiplier && TerminalPrice(m).Ok? && I.AdjustPegCost(m, newPeg).Ok?
    && (valid ==>
          && TerminalPrice(AtPeg(m, newPeg)).Ok? && MarkPrice(AtPeg(m, newPeg).amm).Ok?
          && confidence <= oraclePrice
          && oraclePrice + confidence < 0x1_0000_0000_0000_0000_0000_0000_0000_0000)
  }

  lemma CheckAccepts(m: Market, before: u128, oraclePrice: i128, confidence: u128)
    requires TerminalPrice(m).Ok? && MarkPrice(m.amm).Ok? && confidence <= oraclePrice
    requires oraclePrice + confidence < 0x1_0000_0000_0000_0000_0000_0000_0000_0000
    ensures I.CheckRepeg(m, before, oraclePrice, confidence).Ok?
            <==> TowardOracle(before, TerminalPrice(m).value, oraclePrice, confidence, MarkPrice(m.amm).value)
    ensures var after := TerminalPrice(m).value;
            (after < oraclePrice && after < before) || (oraclePrice < after && before < after) ==>
              I.CheckRepeg(m, before, oraclePrice, confidence) == Err(InvalidRepegDirection)
  {
  }

  lemma PayAccepts(m: Market, cost: i128)
    ensures I.PayRepeg(m, cost).Ok? <==> Payable(m.amm, cost)
    ensures I.PayRepeg(m, cost).Ok? ==>
              I.PayRepeg(m, cost).value
              == m.(amm := m.amm.(totalFeeMinusDistributions := I.PayRepeg(m, cost).value.amm.totalFeeMinusDistributions))
  {
  }

  /** A repeg whose numbers can be computed succeeds if and only if, with a valid oracle, it moves the
      terminal price toward the oracle and, in any case, it can be paid for. One that moves away from a
      valid oracle is refused for its direction. */
  lemma RepegSucceedsIff(m: Market, newPeg: u128, oraclePrice: i128, confidence: u128, valid: bool)
    requires Computable(m, newPeg, oraclePrice, confidence, valid)
    ensures var r, cost := I.Repeg(m, newPeg, oraclePrice, confidence, valid), I.AdjustPegCost(m, newPeg).value.1;
            && (r.Ok? <==>
                  && (valid ==> TowardOracle(TerminalPrice(m).value, TerminalPrice(AtPeg(m, newPeg)).value, oraclePrice,
                                             confidence, MarkPrice(AtPeg(m, newPeg).amm).value))
                  && Payable(m.amm, cost))
            && (r.Ok? ==> r.value.amm.pegMultiplier == newPeg)
            && (valid ==>
                  var before, after := TerminalPrice(m).value, TerminalPrice(AtPeg(m, newPeg)).value;
                  (after < oraclePrice && after < before) || (oraclePrice < after && before < after) ==>
                    r == Err(InvalidRepegDirection))
  {
    var (repegged, cost) := I.AdjustPegCost(m, newPeg).value;
    assert repegged == AtPeg(m, newPeg);
    PayAccepts(repegged, cost);
    if valid {
      CheckAccepts(repegged, TerminalPrice(m).value, oraclePrice, confidence);
    }
  }

  /** Every repeg that succeeds with a valid oracle has its prices and its band, and moved toward it. */
  lemma RepegMovesTowardOracle(m: Market, newPeg: u128, oraclePrice: i128, confidence: u128)
    requires I.Repeg(m, newPeg, oraclePrice, confidence, true).Ok?
    ensures Computable(m, newPeg, oraclePrice, confidence, true)
    ensures TowardOracle(TerminalPrice(m).value, TerminalPrice(AtPeg(m, newPeg)).value, oraclePrice, confidence,
                         MarkPrice(AtPeg(m, newPeg).amm).value)
  {
    var repegged := I.AdjustPegCost(m, newPeg).value.0;
    assert repegged == AtPeg(m, newPeg);
    CheckAccepts(repegged, TerminalPrice(m).value, oraclePrice, confidence);
  }

  /** In a sound market the terminal price is the peg, so a repeg that succeeds with a valid oracle moves
      the peg itself toward the oracle price. */
  lemma RepegMovesPegTowardOracle(m: Market, newPeg: u128, oraclePrice: i128, confidence: u128)
    requires m.initialized && CurveSound(m) && I.Repeg(m, newPeg, oraclePrice, confidence, true).Ok?
    ensures MarkPrice(AtPeg(m, newPeg).amm).Ok?
    ensures TowardOracle(m.amm.pegMultiplier * PRICE_TO_PEG_PRECISION_RATIO, newPeg * PRICE_TO_PEG_PRECISION_RATIO,
                         oraclePrice, confidence, MarkPrice(AtPeg(m, newPeg).amm).value)
  {
    RepegMovesTowardOracle(m, newPeg, oraclePrice, confidence);
    Paths.TerminalPriceIsPeg(m);
    Paths.TerminalPriceIsPeg(AtPeg(m, newPeg));
  }
}
