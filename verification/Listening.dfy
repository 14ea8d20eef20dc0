/** Which oracle readings a trade takes into its market's oracle values. */
module Listening {
  import opened Numeric
  import opened State
  import opened Twap
  import opened Funding
  import opened FundingRates
  import opened TradeEffects
  import opened Charges
  import I = Instructions

  /** The same oracle values and the same period: all that an update of them reads. */
  predicate SameOracle(a: Amm, a': Amm) {
    && a'.lastOraclePrice == a.lastOraclePrice && a'.lastOraclePriceTwap == a.lastOraclePriceTwap
    && a'.lastOraclePriceTwapTs == a.lastOraclePriceTwapTs && a'.fundingPeriod == a.fundingPeriod
  }

  /** A market maker that has taken in a reading, if it is to. */
  function Heard(a: Amm, takes: bool, price: i128, now: i64): Amm {
    if takes && UpdateOracleTwap(a, now, price).Ok? then UpdateOracleTwap(a, now, price).value else a
  }

  lemma AveragesTheSame(a: Amm, a': Amm, capped: i128, price: i128, now: i64)
    requires SameOracle(a, a')
    ensures CappedOraclePrice(a', price) == CappedOraclePrice(a, price)
    ensures NewOracleTwap(a', now, capped) == NewOracleTwap(a, now, capped)
  {
  }

  lemma UpdatesTheSame(a: Amm, a': Amm, price: i128, now: i64)
    requires SameOracle(a, a')
    ensures var r, r' := UpdateOracleTwap(a, now, price), UpdateOracleTwap(a', now, price);
            r'.Ok? == r.Ok? && (r.Ok? ==> SameOracle(r.value, r'.value))
  {
    AveragesTheSame(a, a', if CappedOraclePrice(a, price).Ok? then CappedOraclePrice(a, price).value else 0, price, now);
  }

  lemma HearsTheSame(a: Amm, a': Amm, takes: bool, price: i128, now: i64)
    requires SameOracle(a, a')
    ensures UpdateOracleTwap(a', now, price).Ok? == UpdateOracleTwap(a, now, price).Ok?
    ensures SameOracle(Heard(a, takes, price, now), Heard(a', takes, price, now))
  {
    UpdatesTheSame(a, a', price, now);
  }

  lemma ReadingHears(a: I.Accounts, index: nat, reading: I.OracleReading, now: i64)
    requires index < |a.markets| && I.ReadOracle(a, index, reading, now).Ok?
    ensures var b := I.ReadOracle(a, index, reading, now).value;
            |b.markets| == |a.markets| && b.markets[index].amm == Heard(a.markets[index].amm, reading.valid, reading.price, now)
  {
  }

  lemma FundingHears(a: I.Accounts, index: nat, price: i128, inputs: I.TradeInputs)
    requires index < |a.markets| && I.FundMarket(a, index, price, inputs.fundingBlocked, inputs.now).Ok?
    ensures var amm := a.markets[index].amm;
            SameOracle(Heard(amm, Funds(amm, inputs), price, inputs.now),
                       I.FundMarket(a, index, price, inputs.fundingBlocked, inputs.now).value.markets[index].amm)
  {
    FundMarketCharges(a, index, price, inputs);
    if Funds(a.markets[index].amm, inputs) {
      ApplyFundingShape(a.markets[index], price, inputs.now);
      OracleOnly(a.markets[index], price, inputs.now);
    }
  }

  /** An update of funding takes the reading in as the update of the oracle values would. */
  lemma OracleOnly(m: Market, price: i128, now: i64)
    requires ApplyFunding(m, price, now).Ok?
    ensures UpdateOracleTwap(m.amm, now, price).Ok?
    ensures SameOracle(UpdateOracleTwap(m.amm, now, price).value, ApplyFunding(m, price, now).value.amm)
  {
    ApplyFundingShape(m, price, now);
    MarkTwapShape(UpdateOracleTwap(m.amm, now, price).value, now, None);
  }

  /** What the trade of open_position hears: the reading before it, if that is valid. */
  lemma OpenTradeHears(a: I.Accounts, index: u64, direction: PositionDirection, quote: u128, inputs: I.TradeInputs)
    requires index < |a.markets| && I.OpenTrade(a, index, direction, quote, inputs).Ok?
    ensures var t, amm := I.OpenTrade(a, index, direction, quote, inputs).value.accounts, a.markets[index].amm;
            && |t.markets| == |a.markets|
            && SameOracle(Heard(amm, inputs.before.valid, inputs.before.price, inputs.now), t.markets[index].amm)
            && Funds(t.markets[index].amm, inputs) == Funds(amm, inputs)
  {
    var (user, j) := I.TakeSlot(a.user, index).value;
    var seated := a.(user := user);
    ReadingHears(seated, index, inputs.before, inputs.now);
    TradeEffect(I.ReadOracle(seated, index, inputs.before, inputs.now).value, j, direction, quote, inputs.now);
  }

  /** open_position takes in the reading before the trade if it is valid, and then the one after the trade
      if funding is updated; nothing else moves the oracle values. */
  lemma OpenPositionHears(config: I.Config, a: I.Accounts, index: u64, direction: PositionDirection, quote: u128,
                          limitPrice: u128, inputs: I.TradeInputs)
    requires I.OpenPosition(config, a, index, direction, quote, limitPrice, inputs).Ok?
    ensures index < |a.markets|
    ensures var b, amm := I.OpenPosition(config, a, index, direction, quote, limitPrice, inputs).value, a.markets[index].amm;
            var first := Heard(amm, inputs.before.valid, inputs.before.price, inputs.now);
            && |b.markets| == |a.markets|
            && SameOracle(Heard(first, Funds(amm, inputs), inputs.after.price, inputs.now), b.markets[index].amm)
  {
    var settled := I.Settle(a).value;
    OpenTradeHears(settled, index, direction, quote, inputs);
    FinishOpenHears(config, I.OpenTrade(settled, index, direction, quote, inputs).value, index, direction, limitPrice, inputs);
    var amm, t := a.markets[index].amm, I.OpenTrade(settled, index, direction, quote, inputs).value.accounts.markets[index].amm;
    HearsTheSame(Heard(amm, inputs.before.valid, inputs.before.price, inputs.now), t, Funds(amm, inputs),
                 inputs.after.price, inputs.now);
  }

  lemma FinishOpenHears(config: I.Config, t: I.Traded, index: nat, direction: PositionDirection, limitPrice: u128,
                        inputs: I.TradeInputs)
    requires index < |t.accounts.markets|
    requires I.FinishOpen(config, t, index, direction, limitPrice, inputs).Ok?
    ensures var b, amm := I.FinishOpen(config, t, index, direction, limitPrice, inputs).value, t.accounts.markets[index].amm;
            && |b.markets| == |t.accounts.markets|
            && SameOracle(Heard(amm, Funds(amm, inputs), inputs.after.price, inputs.now), b.markets[index].amm)
  {
    var charged := I.ChargeFee(t.accounts, index, inputs.userFee, inputs.feeToMarket).value;
    var amm := t.accounts.markets[index].amm;
    FundingHears(charged, index, inputs.after.price, inputs);
    HearsTheSame(amm, charged.markets[index].amm, Funds(amm, inputs), inputs.after.price, inputs.now);
  }

  /** close_position takes in the reading after the close if it is valid, and again if funding is updated. */
  lemma ClosePositionHears(a: I.Accounts, index: u64, inputs: I.TradeInputs)
    requires I.ClosePosition(a, index, inputs).Ok?
    ensures index < |a.markets|
    ensures var b, amm := I.ClosePosition(a, index, inputs).value, a.markets[index].amm;
            var first := Heard(amm, inputs.after.valid, inputs.after.price, inputs.now);
            && |b.markets| == |a.markets|
            && SameOracle(Heard(first, Funds(amm, inputs), inputs.after.price, inputs.now), b.markets[index].amm)
  {
    var settled := I.Settle(a).value;
    var j := I.FindSlot(settled.user.positions, index, 0).value;
    CloseEffect(settled, j, inputs.now);
    var closed := I.CloseSlot(settled, j, inputs.now).value.0;
    FinishCloseHears(closed, index, inputs);
    var amm, amm' := a.markets[index].amm, closed.markets[index].amm;
    HearsTheSame(amm, amm', inputs.after.valid, inputs.after.price, inputs.now);
    HearsTheSame(Heard(amm, inputs.after.valid, inputs.after.price, inputs.now),
                 Heard(amm', inputs.after.valid, inputs.after.price, inputs.now), Funds(amm, inputs),
                 inputs.after.price, inputs.now);
  }

  lemma FinishCloseHears(a: I.Accounts, index: nat, inputs: I.TradeInputs)
    requires index < |a.markets| && I.FinishClose(a, index, inputs).Ok?
    ensures var b, amm := I.FinishClose(a, index, inputs).value, a.markets[index].amm;
            var first := Heard(amm, inputs.after.valid, inputs.after.price, inputs.now);
            && |b.markets| == |a.markets|
            && SameOracle(Heard(first, Funds(amm, inputs), inputs.after.price, inputs.now), b.markets[index].amm)
  {
    var amm := a.markets[index].amm;
    var charged := I.ChargeFee(a, index, inputs.userFee, inputs.feeToMarket).value;
    var read := I.ReadOracle(charged, index, inputs.after, inputs.now).value;
    ReadingHears(charged, index, inputs.after, inputs.now);
    HearsTheSame(amm, charged.markets[index].amm, inputs.after.valid, inputs.after.price, inputs.now);
    FundingHears(read, index, inputs.after.price, inputs);
    HearsTheSame(Heard(amm, inputs.after.valid, inputs.after.price, inputs.now), read.markets[index].amm,
                 Funds(amm, inputs), inputs.after.price, inputs.now);
  }
}
