/** Funding and repegging in place. */
module FundingController {
  import opened Numeric
  import opened State
  import opened Curve
  import opened Accounts
  import Tr = Trading
  import F = Funding
  import I = Instructions

  // ----- controller/funding.rs: settle_funding_payment

  /** A failure on the way is the failure of the whole settlement. */
  lemma {:induction false} SettlementFails(markets: seq<Market>, positions: seq<Position>, j: nat)
    requires j <= |positions| && F.SettlePositions(markets, positions[..j]).Err?
    ensures F.SettlePositions(markets, positions) == F.SettlePositions(markets, positions[..j])
    decreases |positions|
  {
    if j < |positions| {
      var n := |positions| - 1;
      assert positions[..n][..j] == positions[..j];
      SettlementFails(markets, positions[..n], j);
    } else {
      assert positions[..j] == positions;
    }
  }

  lemma SettlementStep(markets: seq<Market>, positions: seq<Position>, j: nat)
    requires j < |positions| && F.SettlePositions(markets, positions[..j]).Ok?
    ensures var (settled, total) := F.SettlePositions(markets, positions[..j]).value;
            F.SettlePositions(markets, positions[..j + 1]) ==
              match F.SettleAndAdd(markets, positions[j], total)
              case Err(e) => Err(e)
              case Ok((p, sum)) => Ok((settled + [p], sum))
  {
    assert positions[..j + 1][..j] == positions[..j];
  }

  /** One turn of the loop: brings a slot up to its market's rate. */
  method SettleSlot(position: PositionAccount, markets: seq<MarketAccount>) returns (r: Result<i128>)
    modifies position
    ensures match F.SettlePosition(States(markets), old(position.State()))
            case Ok((p, payment)) => r == Ok(payment) && position.State() == p
            case Err(e) => r == Err(e)
  {
    if position.baseAssetAmount == 0 {
      return Ok(0);
    }
    if position.marketIndex >= |markets| {
      return Err(AccountNotFound);
    }
    var amm := markets[position.marketIndex].amm;
    var rate := if position.baseAssetAmount > 0 then amm.cumulativeFundingRateLong else amm.cumulativeFundingRateShort;
    assert States(markets)[position.marketIndex].amm == amm.State();
    if rate == position.lastCumulativeFundingRate {
      return Ok(0);
    }
    var delta :- FitI128(rate - position.lastCumulativeFundingRate);
    var payment :- F.FundingPayment(delta, position.baseAssetAmount);
    position.lastCumulativeFundingRate := rate;
    position.lastFundingRateTs := amm.lastFundingRateTs;
    r := Ok(payment);
  }

  /** The same, seen from the user's slots, with the running sum. */
  method SettleNth(user: UserAccount, j: nat, markets: seq<MarketAccount>, total: i128) returns (r: Result<i128>)
    requires user.Valid() && j < |user.positions|
    modifies user.positions[j]
    ensures match F.SettleAndAdd(States(markets), old(user.Slots()[j]), total)
            case Ok((p, sum)) => r == Ok(sum) && user.Slots() == old(user.Slots())[j := p]
            case Err(e) => r == Err(e)
  {
    var payment :- SettleSlot(user.positions[j], markets);
    r := FitI128(total + payment);
  }

  /** What the loop has done after j turns: the first j slots settled, the rest untouched. */
  ghost predicate SettledSoFar(markets: seq<Market>, before: seq<Position>, after: seq<Position>, payment: int, j: nat) {
    && j <= |before| == |after|
    && after[j..] == before[j..]
    && F.SettlePositions(markets, before[..j]) == Ok((after[..j], payment))
  }

  lemma SettledOneMore(markets: seq<Market>, before: seq<Position>, after: seq<Position>, total: int, j: nat)
    requires SettledSoFar(markets, before, after, total, j) && j < |before|
    ensures after[j] == before[j]
    ensures match F.SettleAndAdd(markets, before[j], total)
            case Err(e) => F.SettlePositions(markets, before) == Err(e)
            case Ok((p, sum)) => SettledSoFar(markets, before, after[j := p], sum, j + 1)
  {
    assert after[j] == after[j..][0] && before[j] == before[j..][0];
    SettlementStep(markets, before, j);
    if F.SettlePositions(markets, before[..j + 1]).Err? {
      SettlementFails(markets, before, j + 1);
    } else {
      var p := F.SettleAndAdd(markets, before[j], total).value.0;
      assert after[j := p][..j + 1] == after[..j] + [p];
      assert after[j := p][j + 1..] == after[j..][1..];
      assert before[j + 1..] == before[j..][1..];
    }
  }

  /** The loop over the slots; the result is the sum of the payments. */
  method SettleSlots(user: UserAccount, markets: seq<MarketAccount>) returns (r: Result<i128>)
    requires user.Valid()
    modifies user.positions
    ensures match F.SettlePositions(States(markets), old(user.Slots()))
            case Ok((positions, total)) => r == Ok(total) && user.Slots() == positions
            case Err(e) => r == Err(e)
  {
    ghost var states, before := States(markets), user.Slots();
    ghost var current := before;
    var fundingPayment: i128 := 0;
    var j := 0;
    while j < |user.positions|
      invariant j <= |user.positions| == |before|
      invariant current == user.Slots()
      invariant SettledSoFar(states, before, current, fundingPayment, j)
    {
      SettledOneMore(states, before, current, fundingPayment, j);
      var added := SettleNth(user, j, markets, fundingPayment);
      if added.Err? {
        return added;
      }
      current := user.Slots();
      fundingPayment := added.value;
      j := j + 1;
    }
    SettledAll(states, before, current, fundingPayment);
    r := Ok(fundingPayment);
  }

  lemma SettledAll(markets: seq<Market>, before: seq<Position>, after: seq<Position>, total: int)
    requires SettledSoFar(markets, before, after, total, |before|)
    ensures F.SettlePositions(markets, before) == Ok((after, total))
  {
    assert before[..|before|] == before && after[..|before|] == after;
  }

  method SettleFundingPayment(user: UserAccount, markets: seq<MarketAccount>) returns (r: Result<()>)
    requires user.Valid()
    modifies user, user.positions
    ensures match F.SettleUser(States(markets), old(user.State()))
            case Ok(u) => r == Ok(()) && user.State() == u
            case Err(e) => r == Err(e)
  {
    var fundingPayment :- SettleSlots(user, markets);
    var inQuote :- DivI(fundingPayment, AMM_TO_QUOTE_PRECISION_RATIO);
    user.collateral :- Tr.UpdatedCollateral(user.collateral, inQuote);
    r := Ok(());
  }

  // ----- math/funding.rs: calculate_funding_rate_long_short

  method ShareDeficit(market: MarketAccount, uncappedPnl: int, rate: i128) returns (r: Result<(i128, i128)>)
    modifies market.amm
    ensures match F.ShareDeficit(old(market.State()), uncappedPnl, rate)
            case Ok((m, rateLong, rateShort)) => r == Ok((rateLong, rateShort)) && market.State() == m
            case Err(e) => r == Err(e)
  {
    var amm := market.amm;
    var capped :- F.CappedFundingRate(market.State(), uncappedPnl, rate);
    var pool :- FitU128(amm.totalFeeMinusDistributions - Abs(capped.1));
    if capped.1 != 0 && pool < F.FeeFloor(amm.State()) {
      return Err(InvalidFundingProfitability);
    }
    amm.totalFeeMinusDistributions := pool;
    r := Ok((if rate < 0 then capped.0 else rate, if rate > 0 then capped.0 else rate));
  }

  method CalculateFundingRateLongShort(market: MarketAccount, rate: i128) returns (r: Result<(i128, i128)>)
    modifies market.amm
    ensures match F.FundingRateLongShort(old(market.State()), rate)
            case Ok((m, rateLong, rateShort)) => r == Ok((rateLong, rateShort)) && market.State() == m
            case Err(e) => r == Err(e)
  {
    var netPayment :- F.FundingPaymentInQuote(rate, market.baseAssetAmount);
    var uncappedPnl := 0 - netPayment;
    if uncappedPnl >= 0 {
      market.amm.totalFeeMinusDistributions :- FitU128(market.amm.totalFeeMinusDistributions + uncappedPnl);
      return Ok((rate, rate));
    }
    r := ShareDeficit(market, uncappedPnl, rate);
  }

  // ----- controller/funding.rs: update_funding_rate

  method Credit(market: MarketAccount, rateLong: i128, rateShort: i128, rate: i128, now: i64) returns (r: Result<()>)
    modifies market.amm
    ensures match F.Credit(old(market.State()), rateLong, rateShort, rate, now)
            case Ok(m) => r == Ok(()) && market.State() == m
            case Err(e) => r == Err(e)
  {
    var amm := market.amm;
    amm.cumulativeFundingRateLong :- FitI128(amm.cumulativeFundingRateLong + rateLong);
    amm.cumulativeFundingRateShort :- FitI128(amm.cumulativeFundingRateShort + rateShort);
    amm.lastFundingRate := rate;
    amm.lastFundingRateTs := now;
    r := Ok(());
  }

  method Accumulate(market: MarketAccount, rate: i128, now: i64) returns (r: Result<()>)
    modifies market.amm
    ensures match F.Accumulate(old(market.State()), rate, now)
            case Ok(m) => r == Ok(()) && market.State() == m
            case Err(e) => r == Err(e)
  {
    var rates :- CalculateFundingRateLongShort(market, rate);
    r := Credit(market, rates.0, rates.1, rate, now);
  }

  method ApplyFunding(market: MarketAccount, oraclePrice: i128, now: i64) returns (r: Result<()>)
    modifies market.amm
    ensures match F.ApplyFunding(old(market.State()), oraclePrice, now)
            case Ok(m) => r == Ok(()) && market.State() == m
            case Err(e) => r == Err(e)
  {
    var amm := market.amm;
    var oracleTwap :- amm.UpdateOracleTwap(now, oraclePrice);
    var markTwap :- amm.UpdateMarkTwap(now, None);
    var rate :- F.FundingRate(markTwap, oracleTwap, amm.fundingPeriod);
    r := Accumulate(market, rate, now);
  }

  method UpdateFundingRate(market: MarketAccount, oraclePrice: i128, blocked: bool, now: i64) returns (r: Result<()>)
    modifies market.amm
    ensures match F.UpdateFundingRate(old(market.State()), oraclePrice, blocked, now)
            case Ok(m) => r == Ok(()) && market.State() == m
            case Err(e) => r == Err(e)
  {
    var sinceLast :- FitI64(now - market.amm.lastFundingRateTs);
    var wait :- F.NextUpdateWait(market.amm.lastFundingRateTs, market.amm.fundingPeriod);
    if !blocked && sinceLast >= wait {
      r := ApplyFunding(market, oraclePrice, now);
    } else {
      r := Ok(());
    }
  }

  // ----- math/repeg.rs and controller/repeg.rs

  method AdjustPegCost(market: MarketAccount, newPeg: u128) returns (r: Result<i128>)
    modifies market.amm
    ensures match I.AdjustPegCost(old(market.State()), newPeg)
            case Ok((m, cost)) => r == Ok(cost) && market.State() == m
            case Err(e) => r == Err(e)
  {
    var current :- Tr.ValueAndPnl(market.baseAssetAmount, 0, market.amm.State());
    market.amm.pegMultiplier := newPeg;
    var repegged :- Tr.ValueAndPnl(market.baseAssetAmount, current.0, market.amm.State());
    r := Ok(repegged.1);
  }

  method PayRepeg(market: MarketAccount, cost: i128) returns (r: Result<()>)
    modifies market.amm
    ensures match I.PayRepeg(old(market.State()), cost)
            case Ok(m) => r == Ok(()) && market.State() == m
            case Err(e) => r == Err(e)
  {
    var amm := market.amm;
    if cost > 0 {
      amm.totalFeeMinusDistributions := Max(amm.totalFeeMinusDistributions - cost, 0);
      if amm.totalFeeMinusDistributions < F.FeeFloor(amm.State()) {
        return Err(InvalidRepegProfitability);
      }
    } else {
      amm.totalFeeMinusDistributions :- FitU128(amm.totalFeeMinusDistributions + Abs(cost));
    }
    r := Ok(());
  }

  method Repeg(market: MarketAccount, newPeg: u128, oraclePrice: i128, confidence: u128, valid: bool)
    returns (r: Result<()>)
    modifies market.amm
    ensures match I.Repeg(old(market.State()), newPeg, oraclePrice, confidence, valid)
            case Ok(m) => r == Ok(()) && market.State() == m
            case Err(e) => r == Err(e)
  {
    if newPeg == market.amm.pegMultiplier {
      return Err(InvalidRepegRedundant);
    }
    var terminalBefore :- TerminalPrice(market.State());
    var cost :- AdjustPegCost(market, newPeg);
    if valid {
      var _ :- I.CheckRepeg(market.State(), terminalBefore, oraclePrice, confidence);
    }
    r := PayRepeg(market, cost);
  }
}
