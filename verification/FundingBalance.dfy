/** Funding does not overpay: what users and the fee pool gain in one update, once every user has
    settled, is at most one unit for each payer. */
module FundingBalance {
  import opened Numeric
  import opened State
  import opened Funding
  import opened FundingRates
  import opened Aggregates
  import opened Settling

  // ----- One user

  /** At most one open slot, in the given market, and settled up to that market's rates. */
  predicate SingleSettled(positions: seq<Position>, index: u64, a: Amm) {
    && (forall j :: 0 <= j < |positions| && positions[j].IsOpen() ==>
          && positions[j].marketIndex == index
          && positions[j].lastCumulativeFundingRate == CumulativeRate(a, positions[j].baseAssetAmount))
    && (forall j, k :: 0 <= j < k < |positions| ==> !positions[j].IsOpen() || !positions[k].IsOpen())
  }

  /** The payment of one position, exactly. */
  lemma PaymentExact(delta: i128, base: i128)
    requires FundingPayment(delta, base).Ok?
    ensures var payment := FundingPayment(delta, base).value;
            TruncDiv(payment, AMM_TO_QUOTE_PRECISION_RATIO) == Due(delta, base)
  {
    assert FundingPaymentInQuote(delta, base).Ok?;
    PaymentInQuoteExact(delta, base);
  }

  /** The change of the rate of the side a base amount is on. */
  function SideDelta(before: Amm, after: Amm, base: i128): int {
    CumulativeRate(after, base) - CumulativeRate(before, base)
  }

  function NetBase(positions: seq<Position>, index: int): int {
    SlotsTotal(positions, index, LongBase) + SlotsTotal(positions, index, ShortBase)
  }

  lemma SingleSlotDue(markets: seq<Market>, p: Position, index: u64, before: Amm)
    requires index < |markets| && p.IsOpen() && p.marketIndex == index
    requires p.lastCumulativeFundingRate == CumulativeRate(before, p.baseAssetAmount)
    requires SettlePosition(markets, p).Ok?
    ensures TruncDiv(SettlePosition(markets, p).value.1, AMM_TO_QUOTE_PRECISION_RATIO)
         == Due(SideDelta(before, markets[index].amm, p.baseAssetAmount), p.baseAssetAmount)
  {
    var delta := SideDelta(before, markets[index].amm, p.baseAssetAmount);
    if delta != 0 {
      PaymentExact(delta, p.baseAssetAmount);
    }
  }

  /** A user's settlement is the due of his one position. */
  lemma {:induction false} SingleUserDue(markets: seq<Market>, positions: seq<Position>, index: u64, before: Amm)
    returns (base: i128)
    requires index < |markets| && SingleSettled(positions, index, before)
    requires SettlePositions(markets, positions).Ok?
    ensures base == NetBase(positions, index)
    ensures SlotsTotal(positions, index, LongBase) == Max(base, 0)
    ensures SlotsTotal(positions, index, ShortBase) == Min(base, 0)
    ensures TruncDiv(SettlePositions(markets, positions).value.1, AMM_TO_QUOTE_PRECISION_RATIO)
         == Due(SideDelta(before, markets[index].amm, base), base)
  {
    if positions == [] {
      base := 0;
    } else {
      var n := |positions| - 1;
      if positions[n].IsOpen() {
        NothingLeftToSettle(markets, positions[..n]);
        ClosedTotals(positions[..n], index, LongBase);
        ClosedTotals(positions[..n], index, ShortBase);
        base := positions[n].baseAssetAmount;
        SingleSlotDue(markets, positions[n], index, before);
      } else {
        base := SingleUserDue(markets, positions[..n], index, before);
      }
    }
  }

  // ----- All users

  /** Settling succeeds and the collateral covers what is owed. */
  predicate SettlesInFull(markets: seq<Market>, u: User) {
    && SettleUser(markets, u).Ok?
    && SettlePositions(markets, u.positions).Ok?
    && 0 <= u.collateral + TruncDiv(SettlePositions(markets, u.positions).value.1, AMM_TO_QUOTE_PRECISION_RATIO)
  }

  /** What settling gives all users together: received less paid. */
  function Gains(markets: seq<Market>, users: seq<User>): int
    requires forall u :: u in users ==> SettlesInFull(markets, u)
  {
    if users == [] then 0 else
      var n := |users| - 1;
      assert users[n] in users && SettlesInFull(markets, users[n]);
      Gains(markets, users[..n]) + SettleUser(markets, users[n]).value.collateral - users[n].collateral
  }

  /** The measures of the paying and of the receiving side of a rate. */
  function PayingSide(rate: int): Measure {
    if rate > 0 then LongBase else ShortBase
  }

  function ReceivingSide(rate: int): Measure {
    if rate > 0 then ShortBase else LongBase
  }

  /** The number of users with a position on the paying side. */
  function Payers(users: seq<User>, index: int, rate: int): nat {
    if users == [] then 0 else
      var n := |users| - 1;
      Payers(users[..n], index, rate) + (if SlotsTotal(users[n].positions, index, PayingSide(rate)) != 0 then 1 else 0)
  }

  /** One due against the exact amounts, in 1/FUNDING_UNIT: a payer pays less than one unit too little, a
      receiver receives nothing too much. */
  lemma DueBound(paid: nat, received: nat, rate: int, base: int, delta: int)
    requires delta == if (base > 0) == (rate > 0) then (if rate > 0 then paid else 0 - paid)
                      else (if rate > 0 then received else 0 - received)
    ensures var size := Abs(base);
            if (base > 0) == (rate > 0) && base != 0
            then FUNDING_UNIT * Due(delta, base) <= 0 - paid * size + (FUNDING_UNIT - 1)
            else FUNDING_UNIT * Due(delta, base) <= received * size
  {
    var size := Abs(base);
    if (base > 0) == (rate > 0) && base != 0 {
      FloorBounds(paid * size, FUNDING_UNIT);
    } else if base == 0 {
      assert Due(delta, base) == 0;
      assert received * size == 0;
    } else {
      FloorBounds(received * size, FUNDING_UNIT);
    }
  }

  /** One user's gain against the exact amounts, in 1/FUNDING_UNIT. */
  lemma UserGain(markets: seq<Market>, u: User, index: u64, before: Amm, rate: int, paid: nat, received: nat)
    requires index < |markets| && SingleSettled(u.positions, index, before) && SettlesInFull(markets, u)
    requires var a := markets[index].amm;
             var long := a.cumulativeFundingRateLong - before.cumulativeFundingRateLong;
             var short := a.cumulativeFundingRateShort - before.cumulativeFundingRateShort;
             if rate > 0 then long == paid && short == received else short == 0 - paid && long == 0 - received
    ensures var gain := SettleUser(markets, u).value.collateral - u.collateral;
            var paying := Abs(SlotsTotal(u.positions, index, PayingSide(rate)));
            var receiving := Abs(SlotsTotal(u.positions, index, ReceivingSide(rate)));
            FUNDING_UNIT * gain <= 0 - paid * paying + (if paying != 0 then FUNDING_UNIT - 1 else 0) + received * receiving
  {
    var base := SingleUserDue(markets, u.positions, index, before);
    var delta := SideDelta(before, markets[index].amm, base);
    DueBound(paid, received, rate, base, delta);
    assert paid * 0 == 0 && received * 0 == 0;
  }

  lemma {:induction false} UsersGain(markets: seq<Market>, users: seq<User>, index: u64, before: Amm,
                                     rate: int, paid: nat, received: nat)
    requires index < |markets|
    requires forall u :: u in users ==> SingleSettled(u.positions, index, before) && SettlesInFull(markets, u)
    requires var a := markets[index].amm;
             var long := a.cumulativeFundingRateLong - before.cumulativeFundingRateLong;
             var short := a.cumulativeFundingRateShort - before.cumulativeFundingRateShort;
             if rate > 0 then long == paid && short == received else short == 0 - paid && long == 0 - received
    ensures FUNDING_UNIT * Gains(markets, users)
         <= 0 - paid * Abs(UsersTotal(users, index, PayingSide(rate)))
            + (FUNDING_UNIT - 1) * Payers(users, index, rate)
            + received * Abs(UsersTotal(users, index, ReceivingSide(rate)))
  {
    if users != [] {
      var n := |users| - 1;
      UsersGain(markets, users[..n], index, before, rate, paid, received);
      assert users[n] in users;
      UserGain(markets, users[n], index, before, rate, paid, received);
      SizesAdd(users, index, PayingSide(rate), paid);
      SizesAdd(users, index, ReceivingSide(rate), received);
    }
  }

  /** The size of a side grows by each user's own. */
  lemma SizesAdd(users: seq<User>, index: int, side: Measure, rate: int)
    requires users != [] && side != OpenCount
    ensures var n := |users| - 1;
            rate * Abs(UsersTotal(users, index, side))
            == rate * Abs(UsersTotal(users[..n], index, side)) + rate * Abs(SlotsTotal(users[n].positions, index, side))
  {
    var n := |users| - 1;
    var before, own := Abs(UsersTotal(users[..n], index, side)), Abs(SlotsTotal(users[n].positions, index, side));
    SizeAdds(users, index, side);
    Distribute(rate, before, own);
  }

  lemma SizeAdds(users: seq<User>, index: int, side: Measure)
    requires users != [] && side != OpenCount
    ensures var n := |users| - 1;
            Abs(UsersTotal(users, index, side))
            == Abs(UsersTotal(users[..n], index, side)) + Abs(SlotsTotal(users[n].positions, index, side))
  {
    var n := |users| - 1;
    UsersTotalSigns(users[..n], index);
    SlotsTotalSigns(users[n].positions, index);
  }

  // ----- The fee pool makes up the difference

  /** The aggregate of one side of a market. */
  function SideTotal(m: Market, side: Measure): int {
    if side.LongBase? then m.baseAssetAmountLong else m.baseAssetAmountShort
  }

  /** What the pool gains (negative: gives) in an update. */
  function PoolChange(m: Market, rate: i128): int
    requires FundingRateLongShort(m, rate).Ok?
  {
    FundingRateLongShort(m, rate).value.0.amm.totalFeeMinusDistributions - m.amm.totalFeeMinusDistributions
  }

  function ReceivedRate(m: Market, rate: i128): int
    requires FundingRateLongShort(m, rate).Ok?
  {
    var (_, rateLong, rateShort) := FundingRateLongShort(m, rate).value;
    if rate > 0 then rateShort else rateLong
  }

  /** With symmetric rates the pool's side of the net position cancels the users' to within a unit. */
  lemma SymmetricRatesBalance(paid: nat, paying: nat, receiving: nat, gains: int, payers: nat, pool: int)
    requires FUNDING_UNIT * gains <= 0 - paid * paying + (FUNDING_UNIT - 1) * payers + paid * receiving
    requires pool == if paying >= receiving then paid * (paying - receiving) / FUNDING_UNIT
                     else 0 - paid * (receiving - paying) / FUNDING_UNIT
    ensures gains + pool <= payers
  {
    if paying >= receiving {
      FloorBounds(paid * (paying - receiving), FUNDING_UNIT);
      assert paid * (paying - receiving) == paid * paying - paid * receiving;
    } else {
      FloorBounds(paid * (receiving - paying), FUNDING_UNIT);
      assert paid * (receiving - paying) == paid * receiving - paid * paying;
    }
  }

  /** With a capped rate the receivers get no more than the limit and what the payers are charged. */
  lemma CappedRateBalances(paid: nat, paying: nat, receiving: nat, gains: int, payers: nat, limit: nat, received: nat)
    requires 0 < receiving && received == Budget(limit, paid, paying) * FUNDING_UNIT / receiving
    requires FUNDING_UNIT * gains <= 0 - paid * paying + (FUNDING_UNIT - 1) * payers + received * receiving
    ensures gains - limit <= payers
  {
    FloorBounds(Budget(limit, paid, paying) * FUNDING_UNIT, receiving);
    FloorBounds(paid * paying, FUNDING_UNIT);
  }

  /** Whether an update is capped by the fee pool. */
  predicate Capped(m: Market, rate: i128)
    requires FundingRateLongShort(m, rate).Ok?
  {
    var payment := FundingPaymentInQuote(rate, m.baseAssetAmount).value;
    payment > 0 && 0 - payment < PnlLimit(m.amm).value
  }

  lemma CappedPoolBalances(m: Market, rate: i128, gains: int, payers: nat)
    requires Balanced(m) && FundingRateLongShort(m, rate).Ok? && Capped(m, rate)
    requires FUNDING_UNIT * gains <= 0 - Abs(rate) * Abs(SideTotal(m, PayingSide(rate))) + (FUNDING_UNIT - 1) * payers
                          + Abs(ReceivedRate(m, rate)) * Abs(SideTotal(m, ReceivingSide(rate)))
    ensures gains + PoolChange(m, rate) <= payers
  {
    var paying, receiving := Abs(SideTotal(m, PayingSide(rate))), Abs(SideTotal(m, ReceivingSide(rate)));
    ReceiversOutweigh(m, rate);
    var limit := 0 - PnlLimit(m.amm).value;
    CappedRateExact(m, 0 - FundingPaymentInQuote(rate, m.baseAssetAmount).value, rate,
                    SideTotal(m, PayingSide(rate)), SideTotal(m, ReceivingSide(rate)));
    FloorAtLeast(Budget(limit, Abs(rate), paying) * FUNDING_UNIT, receiving, 0);
    CappedRateBalances(Abs(rate), paying, receiving, gains, payers, limit, Abs(ReceivedRate(m, rate)));
  }

  lemma UncappedPoolChange(m: Market, rate: i128)
    requires Balanced(m) && FundingRateLongShort(m, rate).Ok? && !Capped(m, rate)
    ensures ReceivedRate(m, rate) == rate
    ensures var paying, receiving := Abs(SideTotal(m, PayingSide(rate))), Abs(SideTotal(m, ReceivingSide(rate)));
            PoolChange(m, rate) == if paying >= receiving then Abs(rate) * (paying - receiving) / FUNDING_UNIT
                                   else 0 - Abs(rate) * (receiving - paying) / FUNDING_UNIT
  {
    PoolTakesNet(m, rate);
    PaymentInQuoteExact(rate, m.baseAssetAmount);
    DueOfNet(rate, Abs(SideTotal(m, PayingSide(rate))), Abs(SideTotal(m, ReceivingSide(rate))), m.baseAssetAmount);
  }

  /** Without a cap the pool gains what the net position pays, at symmetric rates. */
  lemma PoolTakesNet(m: Market, rate: i128)
    requires FundingRateLongShort(m, rate).Ok? && !Capped(m, rate)
    ensures ReceivedRate(m, rate) == rate
    ensures PoolChange(m, rate) == 0 - FundingPaymentInQuote(rate, m.baseAssetAmount).value
  {
  }

  /** What a net position pays, by which side is larger. */
  lemma DueOfNet(rate: int, paying: nat, receiving: nat, base: int)
    requires if rate > 0 then base == paying - receiving else base == receiving - paying
    ensures 0 - Due(rate, base) == if paying >= receiving then Abs(rate) * (paying - receiving) / FUNDING_UNIT
                                   else 0 - Abs(rate) * (receiving - paying) / FUNDING_UNIT
  {
    FloorUnique(0, FUNDING_UNIT, 0);
    assert Abs(rate) * 0 == 0;
  }

  /** In every branch of the update, the pool's change and the users' gains together stay within the
      number of payers. */
  lemma PoolBalances(m: Market, rate: i128, gains: int, payers: nat)
    requires Balanced(m) && FundingRateLongShort(m, rate).Ok?
    requires FUNDING_UNIT * gains <= 0 - Abs(rate) * Abs(SideTotal(m, PayingSide(rate))) + (FUNDING_UNIT - 1) * payers
                          + Abs(ReceivedRate(m, rate)) * Abs(SideTotal(m, ReceivingSide(rate)))
    ensures gains + PoolChange(m, rate) <= payers
  {
    if Capped(m, rate) {
      CappedPoolBalances(m, rate, gains, payers);
    } else {
      UncappedPoolChange(m, rate);
      SymmetricRatesBalance(Abs(rate), Abs(SideTotal(m, PayingSide(rate))), Abs(SideTotal(m, ReceivingSide(rate))),
                            gains, payers, PoolChange(m, rate));
    }
  }

  /** Funding does not overpay. One update of a market, then the settlement of every user, each with
      at most one position and able to pay: what all users gain together with what the fee pool
      gains is at most the number of payers. */
  lemma FundingDoesNotOverpay(markets: seq<Market>, users: seq<User>, index: u64, oraclePrice: i128, now: i64)
    requires index < |markets| && Balanced(markets[index])
    requires markets[index].baseAssetAmountLong == UsersTotal(users, index, LongBase)
    requires markets[index].baseAssetAmountShort == UsersTotal(users, index, ShortBase)
    requires ApplyFunding(markets[index], oraclePrice, now).Ok?
    requires var after := ApplyFunding(markets[index], oraclePrice, now).value;
             forall u :: u in users ==>
               && SingleSettled(u.positions, index, markets[index].amm)
               && SettlesInFull(markets[index := after], u)
    ensures var m, after := markets[index], ApplyFunding(markets[index], oraclePrice, now).value;
            && Gains(markets[index := after], users)
               + after.amm.totalFeeMinusDistributions - m.amm.totalFeeMinusDistributions
               <= Payers(users, index, after.amm.lastFundingRate)
  {
    var m, after := markets[index], ApplyFunding(markets[index], oraclePrice, now).value;
    ApplyFundingShape(m, oraclePrice, now);
    var funded, rate := Averaged(m, oraclePrice, now), after.amm.lastFundingRate;
    FundingSpendsExcessOnly(funded, rate);
    RatesTempered(funded, rate);
    UsersGain(markets[index := after], users, index, m.amm, rate, Abs(rate), Abs(ReceivedRate(funded, rate)));
    PoolBalances(funded, rate, Gains(markets[index := after], users), Payers(users, index, rate));
  }
}
