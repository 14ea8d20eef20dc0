/** What every run does to a live market's funding clock and to its oracle values. */
module MarketHistory {
  import opened Numeric
  import opened State
  import opened Twap
  import opened Funding
  import opened FundingRates
  import opened Schedule
  import opened TradeEffects
  import opened ClearingHouse
  import I = Instructions

  // ----- What a market's history keeps

  predicate OraclePositive(a: Amm) {
    0 < a.lastOraclePrice && 0 < a.lastOraclePriceTwap
  }

  /** The funding clock stands still, and positive oracle values stay positive. */
  predicate Steady(m: Market, m': Market) {
    && m'.initialized == m.initialized
    && m'.amm.fundingPeriod == m.amm.fundingPeriod
    && m'.amm.lastFundingRateTs == m.amm.lastFundingRateTs
    && (OraclePositive(m.amm) ==> OraclePositive(m'.amm))
  }

  predicate AllSteady(before: seq<Market>, after: seq<Market>) {
    |after| == |before| && forall i :: 0 <= i < |before| ==> Steady(before[i], after[i])
  }

  lemma ReadOracleIsSteady(a: I.Accounts, index: nat, reading: I.OracleReading, now: i64)
    requires index < |a.markets| && I.ReadOracle(a, index, reading, now).Ok?
    ensures AllSteady(a.markets, I.ReadOracle(a, index, reading, now).value.markets)
  {
    var amm := a.markets[index].amm;
    if reading.valid && OraclePositive(amm) {
      OracleUpdateContained(amm, now, reading.price);
    }
  }

  lemma OpenTradeIsSteady(a: I.Accounts, index: u64, direction: PositionDirection, quote: u128, inputs: I.TradeInputs)
    requires index < |a.markets| && I.OpenTrade(a, index, direction, quote, inputs).Ok?
    ensures AllSteady(a.markets, I.OpenTrade(a, index, direction, quote, inputs).value.accounts.markets)
  {
    var (user, j) := I.TakeSlot(a.user, index).value;
    var seated := a.(user := user);
    ReadOracleIsSteady(seated, index, inputs.before, inputs.now);
    TradeEffect(I.ReadOracle(seated, index, inputs.before, inputs.now).value, j, direction, quote, inputs.now);
  }

  lemma LiquidateIsSteady(config: I.Config, a: I.Accounts, blocked: set<u64>, vault: u64, now: i64)
    requires I.Liquidate(config, a, blocked, vault, now).Ok?
    ensures AllSteady(a.markets, I.Liquidate(config, a, blocked, vault, now).value.0.markets)
  {
    var settled := I.Settle(a).value;
    var n := |settled.user.positions|;
    if I.MarginRatio(settled).value.marginRatio <= config.marginRatioMaintenance {
      LiquidateSlotsEffect(settled, n, blocked, now);
    } else {
      TrimSlotsEffect(config, settled, n, blocked, now);
    }
  }

  // ----- Instructions that end with an update of funding

  /** A live market stays live, its clock keeps its schedule, and its positive oracle values stay positive. */
  predicate Evolves(m: Market, m': Market) {
    m.initialized ==>
      && m'.initialized
      && (1 < m.amm.fundingPeriod ==> OnSchedule(m.amm, m'.amm))
      && (OraclePositive(m.amm) ==> OraclePositive(m'.amm))
  }

  predicate AllEvolve(before: seq<Market>, after: seq<Market>) {
    |after| == |before| && forall i :: 0 <= i < |before| ==> Evolves(before[i], after[i])
  }

  lemma EvolutionComposes(one: seq<Market>, two: seq<Market>, three: seq<Market>)
    requires AllEvolve(one, two) && AllEvolve(two, three)
    ensures AllEvolve(one, three)
  {
  }

  lemma UpdateEvolves(m: Market, oraclePrice: i128, blocked: bool, now: i64)
    requires UpdateFundingRate(m, oraclePrice, blocked, now).Ok?
    ensures Evolves(m, UpdateFundingRate(m, oraclePrice, blocked, now).value)
  {
    var m' := UpdateFundingRate(m, oraclePrice, blocked, now).value;
    if 1 < m.amm.fundingPeriod {
      UpdateOnSchedule(m, oraclePrice, blocked, now);
    }
    if m' != m {
      ApplyFundingShape(m, oraclePrice, now);
      if OraclePositive(m.amm) {
        OracleUpdateContained(m.amm, now, oraclePrice);
      }
    }
  }

  lemma FundMarketEvolves(a: I.Accounts, index: nat, oraclePrice: i128, blocked: bool, now: i64)
    requires index < |a.markets| && I.FundMarket(a, index, oraclePrice, blocked, now).Ok?
    ensures AllEvolve(a.markets, I.FundMarket(a, index, oraclePrice, blocked, now).value.markets)
  {
    UpdateEvolves(a.markets[index], oraclePrice, blocked, now);
  }

  lemma FinishOpenEvolves(config: I.Config, t: I.Traded, index: nat, direction: PositionDirection, limitPrice: u128,
                            inputs: I.TradeInputs)
    requires index < |t.accounts.markets|
    requires I.FinishOpen(config, t, index, direction, limitPrice, inputs).Ok?
    ensures AllEvolve(t.accounts.markets, I.FinishOpen(config, t, index, direction, limitPrice, inputs).value.markets)
  {
    var charged := I.ChargeFee(t.accounts, index, inputs.userFee, inputs.feeToMarket).value;
    FundMarketEvolves(charged, index, inputs.after.price, inputs.fundingBlocked, inputs.now);
  }

  lemma OpenPositionEvolves(config: I.Config, a: I.Accounts, index: u64, direction: PositionDirection, quote: u128,
                              limitPrice: u128, inputs: I.TradeInputs)
    requires I.OpenPosition(config, a, index, direction, quote, limitPrice, inputs).Ok?
    ensures AllEvolve(a.markets, I.OpenPosition(config, a, index, direction, quote, limitPrice, inputs).value.markets)
  {
    var settled := I.Settle(a).value;
    OpenTradeIsSteady(settled, index, direction, quote, inputs);
    FinishOpenEvolves(config, I.OpenTrade(settled, index, direction, quote, inputs).value, index, direction,
                        limitPrice, inputs);
  }

  lemma FinishCloseEvolves(a: I.Accounts, index: nat, inputs: I.TradeInputs)
    requires index < |a.markets| && I.FinishClose(a, index, inputs).Ok?
    ensures AllEvolve(a.markets, I.FinishClose(a, index, inputs).value.markets)
  {
    var charged := I.ChargeFee(a, index, inputs.userFee, inputs.feeToMarket).value;
    ReadOracleIsSteady(charged, index, inputs.after, inputs.now);
    FundMarketEvolves(I.ReadOracle(charged, index, inputs.after, inputs.now).value, index,
                        inputs.after.price, inputs.fundingBlocked, inputs.now);
  }

  lemma ClosePositionEvolves(a: I.Accounts, index: u64, inputs: I.TradeInputs)
    requires I.ClosePosition(a, index, inputs).Ok?
    ensures AllEvolve(a.markets, I.ClosePosition(a, index, inputs).value.markets)
  {
    var settled := I.Settle(a).value;
    var j := I.FindSlot(settled.user.positions, index, 0).value;
    CloseEffect(settled, j, inputs.now);
    FinishCloseEvolves(I.CloseSlot(settled, j, inputs.now).value.0, index, inputs);
  }

  // ----- Steps and runs

  lemma StepUserEvolves(config: I.Config, h: House, u: nat, call: Call)
    requires u < |h.users| && StepUser(config, h, u, call).Ok?
    ensures AllEvolve(h.markets, StepUser(config, h, u, call).value.markets)
  {
    var a := Load(h, u);
    match call
    case OpenPosition(_, index, direction, quote, limitPrice, inputs) =>
      OpenPositionEvolves(config, a, index, direction, quote, limitPrice, inputs);
    case ClosePosition(_, index, inputs) => ClosePositionEvolves(a, index, inputs);
    case Liquidate(_, _, blocked, vault, now) => LiquidateIsSteady(config, a, blocked, vault, now);
    case _ =>
  }

  lemma StepMarketEvolves(h: House, index: nat, call: Call)
    requires index < |h.markets| && StepMarket(h, index, call).Ok?
    ensures AllEvolve(h.markets, StepMarket(h, index, call).value.markets)
  {
    var m := h.markets[index];
    match call
    case UpdateFunding(_, oraclePrice, blocked, now) => UpdateEvolves(m, oraclePrice, blocked, now);
    case _ =>
  }

  lemma NextEvolves(h: House, e: Event)
    ensures AllEvolve(h.markets, Next(h, e).markets)
  {
    if Step(e.config, h, e.call).Ok? && !e.call.CreateUser? {
      if UserOf(e.call).Some? {
        StepUserEvolves(e.config, h, UserOf(e.call).value, e.call);
      } else {
        StepMarketEvolves(h, e.call.index, e.call);
      }
    }
  }

  lemma {:induction false} EveryRunEvolves(h: House, events: seq<Event>)
    ensures AllEvolve(h.markets, Run(h, events).markets)
  {
    if events != [] {
      var rest := events[..|events| - 1];
      EveryRunEvolves(h, rest);
      NextEvolves(Run(h, rest), events[|events| - 1]);
      EvolutionComposes(h.markets, Run(h, rest).markets, Run(h, events).markets);
    }
  }

  /** From any state, through any run: a live market's last update is the same one, or it is in a
      later window of the period and at least the period less a third after it. So no window holds
      two updates, whatever calls of whatever users came between them. */
  lemma OneUpdatePerWindow(h: House, events: seq<Event>, i: nat)
    requires i < |h.markets| && h.markets[i].initialized && 1 < h.markets[i].amm.fundingPeriod
    ensures |Run(h, events).markets| == |h.markets|
    ensures OnSchedule(h.markets[i].amm, Run(h, events).markets[i].amm)
  {
    EveryRunEvolves(h, events);
    assert Evolves(h.markets[i], Run(h, events).markets[i]);
  }

  /** Once a live market's oracle average and last oracle price are positive, they are in every state
      of every run, whatever the oracle reads. */
  lemma OracleStaysPositive(h: House, events: seq<Event>, i: nat)
    requires i < |h.markets| && h.markets[i].initialized && OraclePositive(h.markets[i].amm)
    ensures |Run(h, events).markets| == |h.markets|
    ensures OraclePositive(Run(h, events).markets[i].amm)
  {
    EveryRunEvolves(h, events);
    assert Evolves(h.markets[i], Run(h, events).markets[i]);
  }
}
