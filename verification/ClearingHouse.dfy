/** The clearing house as a state machine: every market, every user, one call at a time. A call that
    fails changes nothing. */
module ClearingHouse {
  import opened Numeric
  import opened State
  import opened Funding
  import I = Instructions

  const MARKETS := 64

  datatype House = House(markets: seq<Market>, users: seq<User>)

  datatype Call =
    | InitializeMarket(index: u64, base: u128, quote: u128, period: i64, peg: u128, now: i64,
                       oraclePrice: i128, oracleTwap: i128)
    | CreateUser
    | DeleteUser(user: nat)
    | Deposit(user: nat, amount: u64)
    | Withdraw(user: nat, amount: u64, available: u64)
    | OpenPosition(user: nat, index: u64, direction: PositionDirection, quote: u128, limitPrice: u128,
                   inputs: I.TradeInputs)
    | ClosePosition(user: nat, index: u64, inputs: I.TradeInputs)
    | Liquidate(user: nat, liquidator: nat, blockedMarkets: set<u64>, vault: u64, now: i64)
    | SettleFunding(user: nat)
    | UpdateFunding(index: u64, oraclePrice: i128, blocked: bool, now: i64)
    | Repeg(index: u64, newPeg: u128, oraclePrice: i128, confidence: u128, valid: bool)
    | WithdrawFees(index: u64, amount: u64)
    | TopUp(index: u64, amount: u64)

  const EMPTY_POSITION := Position(0, 0, 0, 0, 0)
  const EMPTY_USER := User(0, [EMPTY_POSITION, EMPTY_POSITION, EMPTY_POSITION, EMPTY_POSITION, EMPTY_POSITION])
  const EMPTY_MARKET := Market(false, 0, 0, 0, 0, Amm(0, 0, 0, 0, 0, 0, 0, 0, 0, 0, 0, 0, 0, 0, 0, 0, 0, 0))

  function Genesis(): House {
    House(seq(MARKETS, _ => EMPTY_MARKET), [])
  }

  /** The accounts a user's instruction loads, and the house with them written back. */
  function Load(h: House, u: nat): I.Accounts
    requires u < |h.users|
  {
    I.Accounts(h.markets, h.users[u])
  }

  function Save(h: House, u: nat, a: I.Accounts): House
    requires u < |h.users|
  {
    House(a.markets, h.users[u := a.user])
  }

  function SaveMarket(h: House, index: nat, r: Result<Market>): Result<House>
    requires index < |h.markets|
  {
    var m :- r;
    Ok(h.(markets := h.markets[index := m]))
  }

  function SaveUser(h: House, u: nat, r: Result<I.Accounts>): Result<House>
    requires u < |h.users|
  {
    var a :- r;
    Ok(Save(h, u, a))
  }

  /** Only an account without collateral can be deleted; its positions are not looked at. */
  function Delete(h: House, u: nat): Result<House>
    requires u < |h.users|
  {
    var _ :- Need(h.users[u].collateral == 0, CantDeleteUserWithCollateral);
    Ok(h.(users := h.users[u := EMPTY_USER]))
  }

  /** Credits a liquidator with his reward. */
  function Reward(h: House, liquidator: nat, reward: nat): Result<House> {
    if reward == 0 then Ok(h) else
      var _ :- Need(liquidator < |h.users|, AccountNotFound);
      var collateral :- FitU128(h.users[liquidator].collateral + reward);
      Ok(h.(users := h.users[liquidator := h.users[liquidator].(collateral := collateral)]))
  }

  /** A call on one user's accounts. */
  function StepUser(config: I.Config, h: House, u: nat, call: Call): Result<House>
    requires u < |h.users|
  {
    match call
    case DeleteUser(_) => Delete(h, u)
    case Deposit(_, amount) => SaveUser(h, u, I.Deposit(Load(h, u), amount))
    case Withdraw(_, amount, available) => SaveUser(h, u, I.Withdraw(config, Load(h, u), amount, available))
    case OpenPosition(_, index, direction, quote, limitPrice, inputs) =>
      SaveUser(h, u, I.OpenPosition(config, Load(h, u), index, direction, quote, limitPrice, inputs))
    case ClosePosition(_, index, inputs) => SaveUser(h, u, I.ClosePosition(Load(h, u), index, inputs))
    case Liquidate(_, liquidator, blocked, vault, now) =>
      var (a, reward) :- I.Liquidate(config, Load(h, u), blocked, vault, now);
      Reward(Save(h, u, a), liquidator, reward)
    case SettleFunding(_) => SaveUser(h, u, I.Settle(Load(h, u)))
    case _ => Ok(h)
  }

  /** A call on one market. */
  function StepMarket(h: House, index: nat, call: Call): Result<House>
    requires index < |h.markets|
  {
    var m := h.markets[index];
    var _ :- Need(m.initialized || call.InitializeMarket?, MarketIndexNotInitialized);
    match call
    case InitializeMarket(_, base, quote, period, peg, now, oraclePrice, oracleTwap) =>
      SaveMarket(h, index, I.InitializeMarket(m, base, quote, period, peg, now, oraclePrice, oracleTwap))
    case UpdateFunding(_, oraclePrice, blocked, now) =>
      SaveMarket(h, index, UpdateFundingRate(m, oraclePrice, blocked, now))
    case Repeg(_, newPeg, oraclePrice, confidence, valid) =>
      SaveMarket(h, index, I.Repeg(m, newPeg, oraclePrice, confidence, valid))
    case WithdrawFees(_, amount) => SaveMarket(h, index, I.WithdrawFees(m, amount))
    case TopUp(_, amount) => SaveMarket(h, index, I.TopUpFromInsurance(m, amount))
    case _ => Ok(h)
  }

  /** Whether a call works on a user's accounts, and which user's. */
  function UserOf(call: Call): Option<nat> {
    match call
    case DeleteUser(u) => Some(u)
    case Deposit(u, _) => Some(u)
    case Withdraw(u, _, _) => Some(u)
    case OpenPosition(u, _, _, _, _, _) => Some(u)
    case ClosePosition(u, _, _) => Some(u)
    case Liquidate(u, _, _, _, _) => Some(u)
    case SettleFunding(u) => Some(u)
    case _ => None
  }

  function Step(config: I.Config, h: House, call: Call): Result<House> {
    if call.CreateUser? then Ok(h.(users := h.users + [EMPTY_USER])) else
      match UserOf(call)
      case Some(u) => if u < |h.users| then StepUser(config, h, u, call) else Err(AccountNotFound)
      case None => if call.index < |h.markets| then StepMarket(h, call.index, call) else Err(AccountNotFound)
  }

  /** A call with the configuration in force when it is made. */
  datatype Event = Event(config: I.Config, call: Call)

  function Next(h: House, e: Event): House {
    match Step(e.config, h, e.call)
    case Ok(h') => h'
    case Err(_) => h
  }

  function Run(h: House, events: seq<Event>): House {
    if events == [] then h else
      Next(Run(h, events[..|events| - 1]), events[|events| - 1])
  }
}
