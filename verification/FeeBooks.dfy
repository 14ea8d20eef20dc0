/** The fee counters of a market over whole runs: what was charged, what was withdrawn, what was topped
    up, and what was distributed. */
module FeeBooks {
  import opened Numeric
  import opened State
  import opened Funding
  import opened FundingRates
  import opened TradeEffects
  import opened Charges
  import opened ClearingHouse
  import opened Runs
  import opened FeePool
  import I = Instructions
  import Openings

  // ----- What one call does to the counters of market i

  /** The fee a successful trade brings the market. */
  function FeeOf(h: House, e: Event, i: int): nat {
    if Step(e.config, h, e.call).Err? then 0 else
      match e.call
      case OpenPosition(_, index, _, _, _, inputs) => if index == i then inputs.feeToMarket else 0
      case ClosePosition(_, index, inputs) => if index == i then inputs.feeToMarket else 0
      case _ => 0
  }

  /** What a successful withdrawal of fees takes. */
  function WithdrawnBy(h: House, e: Event, i: int): nat {
    if e.call.WithdrawFees? && e.call.index == i && Step(e.config, h, e.call).Ok? then e.call.amount else 0
  }

  /** What a successful payment from the insurance fund brings the pool. */
  function ToppedUpBy(h: House, e: Event, i: int): nat {
    if e.call.TopUp? && e.call.index == i && Step(e.config, h, e.call).Ok? then e.call.amount else 0
  }

  /** Whether a call can distribute from the pool: an update of funding that is due, or a repeg. */
  predicate Distributes(h: House, e: Event, i: nat) {
    && i < |h.markets|
    && var a := h.markets[i].amm;
       match e.call
       case OpenPosition(_, index, _, _, _, inputs) => index == i && Funds(a, inputs)
       case ClosePosition(_, index, inputs) => index == i && Funds(a, inputs)
       case UpdateFunding(index, _, blocked, now) =>
         index == i && !blocked && UpdateDue(a.lastFundingRateTs, a.fundingPeriod, now)
       case Repeg(index, _, _, _, _) => index == i
       case _ => false
  }

  /** What such a call takes from the pool (negative: what it brings). */
  function DistributedBy(h: House, e: Event, i: nat): int {
    var h' := Next(h, e);
    if Distributes(h, e, i) && i < |h'.markets|
    then h.markets[i].amm.totalFeeMinusDistributions + FeeOf(h, e, i) - h'.markets[i].amm.totalFeeMinusDistributions
    else 0
  }

  /** The counters moved by the given amounts. */
  predicate Moved(a: Amm, a': Amm, fee: int, withdrawn: int, pool: int) {
    && a'.totalFee == a.totalFee + fee
    && a'.totalFeeWithdrawn == a.totalFeeWithdrawn + withdrawn
    && a'.totalFeeMinusDistributions == a.totalFeeMinusDistributions + pool
  }

  /** A market that is not live has no fees. */
  predicate UnbornIsEmpty(m: Market) {
    !m.initialized ==>
      m.amm.totalFee == 0 && m.amm.totalFeeWithdrawn == 0 && m.amm.totalFeeMinusDistributions == 0
  }

  // ----- Calls on one user

  predicate SameCounters(before: seq<Market>, after: seq<Market>) {
    && |after| == |before|
    && forall i :: 0 <= i < |before| ==>
         after[i].initialized == before[i].initialized && Moved(before[i].amm, after[i].amm, 0, 0, 0)
  }

  lemma LiquidationKeepsCounters(config: I.Config, a: I.Accounts, blocked: set<u64>, vault: u64, now: i64)
    requires I.Liquidate(config, a, blocked, vault, now).Ok?
    ensures SameCounters(a.markets, I.Liquidate(config, a, blocked, vault, now).value.0.markets)
  {
    var settled := I.Settle(a).value;
    var n := |settled.user.positions|;
    if I.MarginRatio(settled).value.marginRatio <= config.marginRatioMaintenance {
      LiquidateSlotsEffect(settled, n, blocked, now);
    } else {
      TrimSlotsEffect(config, settled, n, blocked, now);
    }
  }

  /** The counters after a trade: the fee in full and, unless funding is updated, in the pool too; no
      other market's counters move. */
  predicate TradeMoved(before: seq<Market>, after: seq<Market>, index: int, fee: nat, funds: bool) {
    && |after| == |before|
    && forall i :: 0 <= i < |before| ==>
         && after[i].initialized == before[i].initialized
         && var a, a' := before[i].amm, after[i].amm;
            Moved(a, a', if i == index then fee else 0, 0,
                  if i != index then 0 else if funds then a'.totalFeeMinusDistributions - a.totalFeeMinusDistributions else fee)
  }

  lemma CloseMovesCounters(a: I.Accounts, index: u64, inputs: I.TradeInputs)
    requires I.ClosePosition(a, index, inputs).Ok?
    ensures index < |a.markets|
    ensures TradeMoved(a.markets, I.ClosePosition(a, index, inputs).value.markets, index, inputs.feeToMarket,
                       Funds(a.markets[index].amm, inputs))
  {
    var settled := I.Settle(a).value;
    var j := I.FindSlot(settled.user.positions, index, 0).value;
    CloseSettledCharges(settled, index, j, inputs);
    CloseEffect(settled, j, inputs.now);
  }

  lemma OpenTradeKeepsCounters(a: I.Accounts, index: u64, direction: PositionDirection, quote: u128, inputs: I.TradeInputs)
    requires index < |a.markets| && I.OpenTrade(a, index, direction, quote, inputs).Ok?
    ensures var t := I.OpenTrade(a, index, direction, quote, inputs).value.accounts;
            && SameCounters(a.markets, t.markets)
            && Funds(t.markets[index].amm, inputs) == Funds(a.markets[index].amm, inputs)
  {
    var (user, j) := I.TakeSlot(a.user, index).value;
    var seated := a.(user := user);
    Openings.ReadOracleReads(seated, index, inputs.before, inputs.now);
    TradeEffect(I.ReadOracle(seated, index, inputs.before, inputs.now).value, j, direction, quote, inputs.now);
  }

  lemma OpenMovesCounters(config: I.Config, a: I.Accounts, index: u64, direction: PositionDirection, quote: u128,
                          limitPrice: u128, inputs: I.TradeInputs)
    requires I.OpenPosition(config, a, index, direction, quote, limitPrice, inputs).Ok?
    ensures index < |a.markets|
    ensures TradeMoved(a.markets, I.OpenPosition(config, a, index, direction, quote, limitPrice, inputs).value.markets, index,
                       inputs.feeToMarket, Funds(a.markets[index].amm, inputs))
  {
    var settled := I.Settle(a).value;
    OpenTradeKeepsCounters(settled, index, direction, quote, inputs);
    FinishOpenCharges(config, I.OpenTrade(settled, index, direction, quote, inputs).value, index, direction, limitPrice, inputs);
  }

  // ----- Every call

  /** The counters of market i after a call. */
  predicate Booked(h: House, e: Event, i: nat) {
    && i < |h.markets| == |Next(h, e).markets|
    && Moved(h.markets[i].amm, Next(h, e).markets[i].amm, FeeOf(h, e, i), WithdrawnBy(h, e, i),
             FeeOf(h, e, i) + ToppedUpBy(h, e, i) - DistributedBy(h, e, i))
    && UnbornIsEmpty(Next(h, e).markets[i])
  }

  /** A trade that moved the counters as it should is booked. */
  lemma TradeBooks(h: House, e: Event, index: int, i: nat, fee: nat, funds: bool)
    requires i < |h.markets| && UnbornIsEmpty(h.markets[i]) && !e.call.WithdrawFees? && !e.call.TopUp?
    requires TradeMoved(h.markets, Next(h, e).markets, index, fee, funds)
    requires FeeOf(h, e, i) == (if index == i then fee else 0) && Distributes(h, e, i) == (index == i && funds)
    requires h.markets[i].initialized || index != i
    ensures Booked(h, e, i)
  {
  }

  lemma OpenBooks(h: House, e: Event, u: nat, i: nat)
    requires i < |h.markets| && UnbornIsEmpty(h.markets[i]) && u < |h.users| && UserOf(e.call) == Some(u)
    requires Step(e.config, h, e.call).Ok?
    requires e.call.OpenPosition?
    ensures Booked(h, e, i)
  {
    var c := e.call;
    OpenMovesCounters(e.config, Load(h, u), c.index, c.direction, c.quote, c.limitPrice, c.inputs);
    TradeBooks(h, e, c.index, i, c.inputs.feeToMarket, Funds(h.markets[c.index].amm, c.inputs));
  }

  lemma CloseBooks(h: House, e: Event, u: nat, i: nat)
    requires i < |h.markets| && UnbornIsEmpty(h.markets[i]) && u < |h.users| && UserOf(e.call) == Some(u)
    requires Step(e.config, h, e.call).Ok?
    requires e.call.ClosePosition?
    ensures Booked(h, e, i)
  {
    var c := e.call;
    CloseMovesCounters(Load(h, u), c.index, c.inputs);
    TradeBooks(h, e, c.index, i, c.inputs.feeToMarket, Funds(h.markets[c.index].amm, c.inputs));
  }

  /** A call that moves no counter is booked. */
  lemma SameBooks(h: House, e: Event, i: nat)
    requires i < |h.markets| && UnbornIsEmpty(h.markets[i]) && SameCounters(h.markets, Next(h, e).markets)
    requires FeeOf(h, e, i) == 0 && WithdrawnBy(h, e, i) == 0 && ToppedUpBy(h, e, i) == 0
    ensures Booked(h, e, i)
  {
  }

  lemma LiquidateBooks(h: House, e: Event, u: nat, i: nat)
    requires i < |h.markets| && UnbornIsEmpty(h.markets[i]) && u < |h.users| && UserOf(e.call) == Some(u)
    requires Step(e.config, h, e.call).Ok?
    requires e.call.Liquidate?
    ensures Booked(h, e, i)
  {
    LiquidationKeepsCounters(e.config, Load(h, u), e.call.blockedMarkets, e.call.vault, e.call.now);
    SameBooks(h, e, i);
  }

  lemma QuietBooks(h: House, e: Event, u: nat, i: nat)
    requires i < |h.markets| && UnbornIsEmpty(h.markets[i]) && u < |h.users| && UserOf(e.call) == Some(u)
    requires Step(e.config, h, e.call).Ok?
    requires e.call.DeleteUser? || e.call.Deposit? || e.call.Withdraw? || e.call.SettleFunding?
    ensures Booked(h, e, i)
  {
    SameBooks(h, e, i);
  }

  lemma StepUserBooks(h: House, e: Event, u: nat, i: nat)
    requires i < |h.markets| && UnbornIsEmpty(h.markets[i]) && u < |h.users| && UserOf(e.call) == Some(u)
    requires Step(e.config, h, e.call).Ok?
    ensures Booked(h, e, i)
  {
    if e.call.OpenPosition? {
      OpenBooks(h, e, u, i);
    } else if e.call.ClosePosition? {
      CloseBooks(h, e, u, i);
    } else if e.call.Liquidate? {
      LiquidateBooks(h, e, u, i);
    } else {
      QuietBooks(h, e, u, i);
    }
  }

  lemma UpdateBooks(h: House, e: Event, i: nat)
    requires i < |h.markets| && UnbornIsEmpty(h.markets[i]) && e.call.UpdateFunding?
    requires Step(e.config, h, e.call).Ok?
    ensures Booked(h, e, i)
  {
    var m := h.markets[e.call.index];
    if UpdateFundingRate(m, e.call.oraclePrice, e.call.blocked, e.call.now).value != m {
      ApplyFundingShape(m, e.call.oraclePrice, e.call.now);
    }
  }

  lemma RepegBooks(h: House, e: Event, i: nat)
    requires i < |h.markets| && UnbornIsEmpty(h.markets[i]) && e.call.Repeg?
    requires Step(e.config, h, e.call).Ok?
    ensures Booked(h, e, i)
  {
    RepegKeepsFees(h.markets[e.call.index], e.call.newPeg, e.call.oraclePrice, e.call.confidence, e.call.valid);
  }

  lemma StepMarketBooks(h: House, e: Event, i: nat)
    requires i < |h.markets| && UnbornIsEmpty(h.markets[i]) && UserOf(e.call).None? && !e.call.CreateUser?
    requires Step(e.config, h, e.call).Ok?
    ensures Booked(h, e, i)
  {
    if e.call.UpdateFunding? {
      UpdateBooks(h, e, i);
    } else if e.call.Repeg? {
      RepegBooks(h, e, i);
    }
  }

  lemma RepegKeepsFees(m: Market, newPeg: u128, oraclePrice: i128, confidence: u128, valid: bool)
    requires I.Repeg(m, newPeg, oraclePrice, confidence, valid).Ok?
    ensures var m' := I.Repeg(m, newPeg, oraclePrice, confidence, valid).value;
            && m'.initialized == m.initialized
            && m'.amm.totalFee == m.amm.totalFee && m'.amm.totalFeeWithdrawn == m.amm.totalFeeWithdrawn
  {
    var (repegged, cost) := I.AdjustPegCost(m, newPeg).value;
    assert I.PayRepeg(repegged, cost) == I.Repeg(m, newPeg, oraclePrice, confidence, valid);
  }

  lemma NextBooks(h: House, e: Event, i: nat)
    requires i < |h.markets| && UnbornIsEmpty(h.markets[i])
    ensures Booked(h, e, i)
  {
    if Step(e.config, h, e.call).Ok? && !e.call.CreateUser? {
      if UserOf(e.call).Some? {
        StepUserBooks(h, e, UserOf(e.call).value, i);
      } else {
        StepMarketBooks(h, e, i);
      }
    }
  }

  // ----- Runs

  /** The sums over a run of what each call did to market i. */
  datatype Book = Book(fees: nat, withdrawn: nat, toppedUp: nat, distributed: int)

  function BookOf(events: seq<Event>, i: nat): Book {
    if events == [] then Book(0, 0, 0, 0) else
      var rest, last := events[..|events| - 1], events[|events| - 1];
      var b, h := BookOf(rest, i), Run(Genesis(), rest);
      Book(b.fees + FeeOf(h, last, i), b.withdrawn + WithdrawnBy(h, last, i), b.toppedUp + ToppedUpBy(h, last, i),
           b.distributed + DistributedBy(h, last, i))
  }

  /** In every run, clean or not: a market's total of fees is the sum of the fees of its trades, what was
      withdrawn is the sum of its withdrawals, and the pool is the fees and the top-ups less what was
      distributed by updates of funding and repegs. */
  lemma {:induction false} BooksBalance(events: seq<Event>, i: nat)
    requires i < MARKETS
    ensures var h, b := Run(Genesis(), events), BookOf(events, i);
            && |h.markets| == MARKETS && UnbornIsEmpty(h.markets[i])
            && h.markets[i].amm.totalFee == b.fees
            && h.markets[i].amm.totalFeeWithdrawn == b.withdrawn
            && h.markets[i].amm.totalFeeMinusDistributions == b.fees + b.toppedUp - b.distributed
  {
    if events != [] {
      var rest := events[..|events| - 1];
      BooksBalance(rest, i);
      NextBooks(Run(Genesis(), rest), events[|events| - 1], i);
    }
  }

  /** A withdrawal of fees succeeds if and only if, with it, no more than half of the fees is withdrawn. */
  lemma WithdrawFeesIff(m: Market, amount: u64)
    requires m.amm.totalFeeWithdrawn <= m.amm.totalFee / 2
    ensures var r := I.WithdrawFees(m, amount);
            && (r.Ok? <==> m.amm.totalFeeWithdrawn + amount <= m.amm.totalFee / 2)
            && (r.Err? ==> r == Err(AdminWithdrawTooLarge))
            && (r.Ok? ==> r.value.amm.totalFeeWithdrawn == m.amm.totalFeeWithdrawn + amount)
  {
  }

  /** No more was withdrawn than half of the fees, and no more distributed than the other half and what
      was topped up. */
  predicate Solvent(b: Book) {
    b.withdrawn <= b.fees / 2 && b.distributed <= b.fees - b.fees / 2 + b.toppedUp
  }

  lemma WithdrawalsWithinHalf(events: seq<Event>, i: nat)
    requires CleanRun(Genesis(), events) && i < MARKETS
    ensures Solvent(BookOf(events, i))
  {
    BooksBalance(events, i);
    FeePoolFloorInEveryRun(events, i);
  }
}
