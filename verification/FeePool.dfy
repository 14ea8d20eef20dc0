/** The fee pool over whole runs, and what a repeg can take from it. */
module FeePool {
  import opened Numeric
  import opened State
  import opened Curve
  import opened ClearingHouse
  import opened Invariants
  import opened Runs
  import I = Instructions
  import Trading

  /** Pool >= half of all fees >= fees withdrawn, in one market. */
  predicate PoolAboveFloor(h: House, i: nat) {
    && i < |h.markets|
    && h.markets[i].amm.totalFeeWithdrawn <= h.markets[i].amm.totalFee / 2
    && h.markets[i].amm.totalFee / 2 <= h.markets[i].amm.totalFeeMinusDistributions
  }

  /** In every state of every run, every market's pool is above its floor. */
  lemma FeePoolFloorInEveryRun(events: seq<Event>, i: nat)
    requires CleanRun(Genesis(), events) && i < MARKETS
    ensures PoolAboveFloor(Run(Genesis(), events), i)
  {
    RunSound(events);
    assert FeesSound(Run(Genesis(), events).markets[i].amm);
  }

  /** A repeg that gets as far as being charged: what it costs, and the market at the new peg. */
  function Charged(m: Market, newPeg: u128, oraclePrice: i128, confidence: u128, valid: bool): Result<(Market, i128)> {
    var _ :- Need(newPeg != m.amm.pegMultiplier, InvalidRepegRedundant);
    var terminalBefore :- TerminalPrice(m);
    var (repegged, cost) :- I.AdjustPegCost(m, newPeg);
    var _ :- if valid then I.CheckRepeg(repegged, terminalBefore, oraclePrice, confidence) else Ok(());
    Ok((repegged, cost))
  }

  /** A repeg within the pool is charged in full, and refused where that would leave less than half of
      all fees. One that costs more than the pool holds should be refused; it is, unless no more than
      one unit of fees was ever collected, and then it empties the pool. */
  lemma RepegCharge(m: Market, newPeg: u128, oraclePrice: i128, confidence: u128, valid: bool)
    requires Charged(m, newPeg, oraclePrice, confidence, valid).Ok?
    requires 0 < Charged(m, newPeg, oraclePrice, confidence, valid).value.1
    ensures var (repegged, cost) := Charged(m, newPeg, oraclePrice, confidence, valid).value;
            var r := I.Repeg(m, newPeg, oraclePrice, confidence, valid);
            var left := m.amm.totalFeeMinusDistributions - cost;
            && (0 <= left ==>
                  r == if left >= m.amm.totalFee / 2
                       then Ok(repegged.(amm := repegged.amm.(totalFeeMinusDistributions := left)))
                       else Err(InvalidRepegProfitability))
            && (left < 0 ==> (r.Ok? <==> m.amm.totalFee <= 1))
            && (left < 0 && r.Ok? ==> r.value == repegged.(amm := repegged.amm.(totalFeeMinusDistributions := 0)))
  {
    var (repegged, cost) := Charged(m, newPeg, oraclePrice, confidence, valid).value;
    assert I.Repeg(m, newPeg, oraclePrice, confidence, valid) == I.PayRepeg(repegged, cost);
  }

  /** The value of the net position of all users, which a repeg moves by its cost: what it gains, less
      the unit the valuation charges to a net short. */
  lemma RepegCostIsGain(m: Market, newPeg: u128)
    requires m.baseAssetAmount != 0 && I.AdjustPegCost(m, newPeg).Ok?
    ensures var (m', cost) := I.AdjustPegCost(m, newPeg).value;
            && ValueOf(m).Ok? && ValueOf(m').Ok?
            && m' == m.(amm := m.amm.(pegMultiplier := newPeg))
            && cost == if m.baseAssetAmount > 0 then ValueOf(m').value - ValueOf(m).value
                       else ValueOf(m).value - ValueOf(m').value - 1
  {
  }

  function ValueOf(m: Market): Result<u128> {
    var (value, _) :- Trading.ValueAndPnl(m.baseAssetAmount, 0, m.amm);
    Ok(value)
  }
}
