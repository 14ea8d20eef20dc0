/** A market is zero-sum over all its users: what they realise together, from flat to flat, is what the
    floors of their trades leave. */
module ZeroSum {
  import opened Numeric
  import opened State
  import opened Curve
  import opened Trading
  import opened Shapes
  import opened Rounding
  import opened Equity

  // ----- A crowd trading in one market

  /** A trade of one user, with the collateral he has at the time. A reversal is a shut and a grow. */
  datatype Move =
    | Grow(user: nat, side: PositionDirection, quote: u128, now: i64)
    | Shrink(user: nat, quote: u128, collateral: u128, now: i64, mark: Option<u128>)
    | Shut(user: nat, collateral: u128, now: i64)

  /** What users lose or gain to rounding: the number of their trades whose rounding can favour them, of
      those it can hurt, and the amounts of openings that acquired nothing, bought and sold. */
  datatype Dust = Dust(favourable: nat, adverse: nat, idleBought: nat, idleSold: nat)

  /** The market, everyone's position in it, and what all have realised before fees and clamps. */
  datatype Crowd = Crowd(market: Market, positions: seq<Position>, realised: int, dust: Dust)

  function Counted(d: Dust, favours: bool): Dust {
    if favours then d.(favourable := d.favourable + 1) else d.(adverse := d.adverse + 1)
  }

  /** An opening that acquired nothing owes nothing: its slot is cleared before it is used again. */
  function Idled(d: Dust, side: PositionDirection, quote: nat): Dust {
    if side.Long? then d.(idleBought := d.idleBought + quote) else d.(idleSold := d.idleSold + quote)
  }

  function GrowStep(s: Crowd, u: nat, side: PositionDirection, quote: u128, now: i64): Result<Crowd>
    requires u < |s.positions|
  {
    var p := s.positions[u];
    var _ :- Need(p.IsOpen() ==> OnSide(side, p.baseAssetAmount), MathError);
    var seat := if p.IsOpen() then p else Position(p.marketIndex, 0, 0, 0, 0);
    var (m', p', _) :- Increase(side, quote, s.market, seat, now);
    var dust := if p'.IsOpen() then Counted(s.dust, side.Short?) else Idled(s.dust, side, quote);
    Ok(Crowd(m', s.positions[u := p'], s.realised, dust))
  }

  function ShrinkStep(s: Crowd, u: nat, quote: u128, collateral: u128, now: i64, mark: Option<u128>): Result<Crowd>
    requires u < |s.positions|
  {
    var p := s.positions[u];
    var (value, _) :- ValueAndPnl(p.baseAssetAmount, p.quoteAssetAmount, s.market.amm);
    var _ :- Need(quote < value, MathError);
    var (m', p', _, _) :- Reduce(DirectionToClose(p.baseAssetAmount), quote, collateral, s.market, p, now, mark);
    var pnl :- ReducePnl(p'.baseAssetAmount, quote, p.quoteAssetAmount - p'.quoteAssetAmount);
    Ok(Crowd(m', s.positions[u := p'], s.realised + pnl, Counted(s.dust, p.baseAssetAmount > 0)))
  }

  function ShutStep(s: Crowd, u: nat, collateral: u128, now: i64): Result<Crowd>
    requires u < |s.positions|
  {
    var p := s.positions[u];
    var _ :- Need(p.IsOpen(), MathError);
    var (_, pnl) :- ValueAndPnl(p.baseAssetAmount, p.quoteAssetAmount, s.market.amm);
    var (m', p', _, _) :- Close(collateral, s.market, p, now);
    Ok(Crowd(m', s.positions[u := p'], s.realised + pnl, Counted(s.dust, false)))
  }

  function CrowdStep(s: Crowd, move: Move): Result<Crowd> {
    var _ :- Need(move.user < |s.positions|, AccountNotFound);
    match move
    case Grow(u, side, quote, now) => GrowStep(s, u, side, quote, now)
    case Shrink(u, quote, collateral, now, mark) => ShrinkStep(s, u, quote, collateral, now, mark)
    case Shut(u, collateral, now) => ShutStep(s, u, collateral, now)
  }

  function CrowdRun(s: Crowd, moves: seq<Move>): Result<Crowd> {
    if moves == [] then Ok(s) else
      var before :- CrowdRun(s, moves[..|moves| - 1]);
      CrowdStep(before, moves[|moves| - 1])
  }

  // ----- What is conserved

  /** What closing a position at a value of zero would realise: a short keeps its entry notional, a long
      loses it. */
  function Signed(p: Position): int {
    if p.baseAssetAmount > 0 then 0 - p.quoteAssetAmount
    else if p.baseAssetAmount < 0 then p.quoteAssetAmount
    else 0
  }

  function Owed(positions: seq<Position>): int {
    if positions == [] then 0 else Owed(positions[..|positions| - 1]) + Signed(positions[|positions| - 1])
  }

  function Held(positions: seq<Position>): int {
    if positions == [] then 0 else Held(positions[..|positions| - 1]) + positions[|positions| - 1].baseAssetAmount
  }

  lemma {:induction false} SumsUpdate(positions: seq<Position>, u: nat, p: Position)
    requires u < |positions|
    ensures Owed(positions[u := p]) == Owed(positions) - Signed(positions[u]) + Signed(p)
    ensures Held(positions[u := p]) == Held(positions) - positions[u].baseAssetAmount + p.baseAssetAmount
  {
    var n := |positions| - 1;
    if u < n {
      assert positions[u := p][..n] == positions[..n][u := p];
      SumsUpdate(positions[..n], u, p);
    } else {
      assert positions[u := p][..n] == positions[..n];
    }
  }

  predicate Flat(positions: seq<Position>) {
    forall u :: 0 <= u < |positions| ==> !positions[u].IsOpen()
  }

  lemma {:induction false} FlatSums(positions: seq<Position>)
    requires Flat(positions)
    ensures Owed(positions) == 0 && Held(positions) == 0
  {
    if positions != [] {
      FlatSums(positions[..|positions| - 1]);
    }
  }

  /** What the users have realised or are owed, and what the curve holds, in 1/QUOTE_UNIT. */
  function Wealth(s: Crowd): int {
    QUOTE_UNIT * (s.realised + Owed(s.positions)) + s.market.amm.quoteAssetReserve * s.market.amm.pegMultiplier
  }

  /** The most the floors can have given, and the most they can have taken. */
  function Given(d: Dust, peg: int): nat
    requires 0 < peg
  {
    d.favourable * Slack(peg) + d.idleBought
  }

  function Taken(d: Dust, peg: int): nat
    requires 0 < peg
  {
    d.adverse * (Slack(peg) + 1) + d.idleSold
  }

  /** The curve is in order. */
  predicate Orderly(s: Crowd) {
    TightCurve(s.market.amm) && 1 <= s.market.amm.minimumTradeSize && 0 < s.market.amm.pegMultiplier
  }

  /** One state follows from another: same curve and base in total, and the wealth moves only by dust. */
  predicate Conserves(s: Crowd, s': Crowd) {
    var a, a' := s.market.amm, s'.market.amm;
    && Orderly(s) && Orderly(s')
    && a'.pegMultiplier == a.pegMultiplier && a'.sqrtK == a.sqrtK
    && a'.baseAssetReserve + Held(s'.positions) == a.baseAssetReserve + Held(s.positions)
    && Wealth(s') - Wealth(s) <= QUOTE_UNIT * (Given(s'.dust, a.pegMultiplier) - Given(s.dust, a.pegMultiplier))
    && Wealth(s) - Wealth(s') <= QUOTE_UNIT * (Taken(s'.dust, a.pegMultiplier) - Taken(s.dust, a.pegMultiplier))
  }

  /** The wealth a single trade moves: what one user realises or is owed more, and what the curve gets. */
  predicate Moves(change: int, reserves: int, peg: int, given: int, taken: int) {
    && QUOTE_UNIT * change + reserves * peg <= QUOTE_UNIT * given
    && 0 - (QUOTE_UNIT * change + reserves * peg) <= QUOTE_UNIT * taken
  }

  lemma BuyMoves(quote: nat, peg: int)
    requires 0 < peg
    ensures Moves(0 - quote, Reserves(quote, peg), peg, 0, Slack(peg))
    ensures Moves(0, Reserves(quote, peg), peg, quote, 0)
  {
    ReserveLoss(quote, peg);
    FloorAtLeast(quote * QUOTE_UNIT, peg, 0);
    MulMono(0, Reserves(quote, peg), peg);
  }

  lemma SellMoves(quote: nat, peg: int)
    requires 0 < peg
    ensures Moves(quote, 0 - Reserves(quote, peg), peg, Slack(peg), 0)
    ensures Moves(0, 0 - Reserves(quote, peg), peg, 0, quote)
  {
    ReserveLoss(quote, peg);
    FloorAtLeast(quote * QUOTE_UNIT, peg, 0);
    MulMono(0, Reserves(quote, peg), peg);
    assert (0 - Reserves(quote, peg)) * peg == 0 - Reserves(quote, peg) * peg;
  }

  lemma ShutMoves(change: int, peg: int, long: bool)
    requires 0 < peg
    ensures long ==> Moves(change * peg / QUOTE_UNIT, 0 - change, peg, 0, 1)
    ensures !long ==> Moves(0 - change * peg / QUOTE_UNIT - 1, change, peg, 0, 1)
  {
    FloorBounds(change * peg, QUOTE_UNIT);
    assert (0 - change) * peg == 0 - change * peg;
  }

  lemma WealthMoves(x: int, x': int, q: int, q': int, peg: int, change: int)
    requires x' == x + change
    ensures QUOTE_UNIT * x' + q' * peg - (QUOTE_UNIT * x + q * peg) == QUOTE_UNIT * change + (q' - q) * peg
  {
  }

  lemma CountedDust(d: Dust, favours: bool, peg: int)
    requires 0 < peg
    ensures Given(Counted(d, favours), peg) - Given(d, peg) == if favours then Slack(peg) else 0
    ensures Taken(Counted(d, favours), peg) - Taken(d, peg) == if favours then 0 else Slack(peg) + 1
  {
  }

  // ----- One trade

  /** What a trade of one user did: the curve moved its quote reserve, the base went to or came from
      his position, and his realised and owed amounts changed. */
  predicate Traded(s: Crowd, s': Crowd, u: nat, change: int, reserves: int) {
    var a, a' := s.market.amm, s'.market.amm;
    && u < |s.positions| && |s'.positions| == |s.positions| && s'.positions == s.positions[u := s'.positions[u]]
    && TightCurve(a')
    && a'.pegMultiplier == a.pegMultiplier && a'.sqrtK == a.sqrtK && a'.minimumTradeSize == a.minimumTradeSize
    && a'.baseAssetReserve + s'.positions[u].baseAssetAmount == a.baseAssetReserve + s.positions[u].baseAssetAmount
    && a'.quoteAssetReserve - a.quoteAssetReserve == reserves
    && change == s'.realised + Signed(s'.positions[u]) - s.realised - Signed(s.positions[u])
  }

  /** From one trade to the crowd. */
  lemma MovesConserve(s: Crowd, s': Crowd, u: nat, change: int, reserves: int, given: int, taken: int)
    requires Orderly(s) && Traded(s, s', u, change, reserves)
    requires Moves(change, reserves, s.market.amm.pegMultiplier, given, taken)
    requires Given(s'.dust, s.market.amm.pegMultiplier) - Given(s.dust, s.market.amm.pegMultiplier) == given
    requires taken <= Taken(s'.dust, s.market.amm.pegMultiplier) - Taken(s.dust, s.market.amm.pegMultiplier)
    ensures Conserves(s, s')
  {
    SumsUpdate(s.positions, u, s'.positions[u]);
    WealthMoves(s.realised + Owed(s.positions), s'.realised + Owed(s'.positions), s.market.amm.quoteAssetReserve,
                s'.market.amm.quoteAssetReserve, s.market.amm.pegMultiplier, change);
  }

  lemma GrowTrades(s: Crowd, u: nat, side: PositionDirection, quote: u128, now: i64)
    requires Orderly(s) && u < |s.positions| && GrowStep(s, u, side, quote, now).Ok?
    ensures var s', r := GrowStep(s, u, side, quote, now).value, Reserves(quote, s.market.amm.pegMultiplier);
            Traded(s, s', u, if !s'.positions[u].IsOpen() then 0 else if side.Long? then 0 - quote else quote,
                   if side.Long? then r else 0 - r)
  {
    var p := s.positions[u];
    var seat := if p.IsOpen() then p else Position(p.marketIndex, 0, 0, 0, 0);
    if quote != 0 {
      IncreaseShape(side, quote, s.market, seat, now);
      SwapQuoteShape(s.market.amm, quote, QuoteSwapDirection(side), now, None);
      AcquiredSign(s.market.amm, quote, QuoteSwapDirection(side), now, None);
    } else {
      FloorUnique(0, s.market.amm.pegMultiplier, 0);
    }
  }

  lemma GrowConserves(s: Crowd, u: nat, side: PositionDirection, quote: u128, now: i64)
    requires Orderly(s) && u < |s.positions| && GrowStep(s, u, side, quote, now).Ok?
    ensures Conserves(s, GrowStep(s, u, side, quote, now).value)
  {
    var peg, s' := s.market.amm.pegMultiplier, GrowStep(s, u, side, quote, now).value;
    GrowTrades(s, u, side, quote, now);
    CountedDust(s.dust, side.Short?, peg);
    if side.Long? {
      BuyMoves(quote, peg);
      if s'.positions[u].IsOpen() {
        MovesConserve(s, s', u, 0 - quote, Reserves(quote, peg), 0, Slack(peg));
      } else {
        MovesConserve(s, s', u, 0, Reserves(quote, peg), quote, 0);
      }
    } else {
      SellMoves(quote, peg);
      if s'.positions[u].IsOpen() {
        MovesConserve(s, s', u, quote, 0 - Reserves(quote, peg), Slack(peg), 0);
      } else {
        MovesConserve(s, s', u, 0, 0 - Reserves(quote, peg), 0, quote);
      }
    }
  }

  lemma ShrinkTrades(s: Crowd, u: nat, quote: u128, collateral: u128, now: i64, mark: Option<u128>)
    requires Orderly(s) && u < |s.positions| && ShrinkStep(s, u, quote, collateral, now, mark).Ok?
    ensures var s', r := ShrinkStep(s, u, quote, collateral, now, mark).value, Reserves(quote, s.market.amm.pegMultiplier);
            if s.positions[u].baseAssetAmount > 0 then Traded(s, s', u, quote, 0 - r) else Traded(s, s', u, 0 - quote, r)
  {
    var p := s.positions[u];
    var direction := DirectionToClose(p.baseAssetAmount);
    NoSignFlip(quote, collateral, s.market, p, now, mark);
    ReduceShape(direction, quote, collateral, s.market, p, now, mark);
    SwapQuoteShape(s.market.amm, quote, QuoteSwapDirection(direction), now, mark);
    FlatOwesNothing(p, ShrinkStep(s, u, quote, collateral, now, mark).value.positions[u]);
  }

  /** A reduction that leaves a slot flat closes its whole entry notional. */
  lemma FlatOwesNothing(p: Position, p': Position)
    requires p.IsOpen() && EntryClosed(p, p'.baseAssetAmount) == Ok(p.quoteAssetAmount - p'.quoteAssetAmount)
    ensures !p'.IsOpen() ==> p'.quoteAssetAmount == 0
  {
    FloorShift(0, Abs(p.baseAssetAmount), p.quoteAssetAmount);
  }

  lemma ShrinkConserves(s: Crowd, u: nat, quote: u128, collateral: u128, now: i64, mark: Option<u128>)
    requires Orderly(s) && u < |s.positions| && ShrinkStep(s, u, quote, collateral, now, mark).Ok?
    ensures Conserves(s, ShrinkStep(s, u, quote, collateral, now, mark).value)
  {
    var peg, s' := s.market.amm.pegMultiplier, ShrinkStep(s, u, quote, collateral, now, mark).value;
    ShrinkTrades(s, u, quote, collateral, now, mark);
    CountedDust(s.dust, s.positions[u].baseAssetAmount > 0, peg);
    if s.positions[u].baseAssetAmount > 0 {
      SellMoves(quote, peg);
      MovesConserve(s, s', u, quote, 0 - Reserves(quote, peg), Slack(peg), 0);
    } else {
      BuyMoves(quote, peg);
      MovesConserve(s, s', u, 0 - quote, Reserves(quote, peg), 0, Slack(peg));
    }
  }

  lemma ShutTrades(s: Crowd, u: nat, collateral: u128, now: i64)
    returns (moved: int)
    requires Orderly(s) && u < |s.positions| && ShutStep(s, u, collateral, now).Ok?
    ensures var s', value := ShutStep(s, u, collateral, now).value, moved * s.market.amm.pegMultiplier / QUOTE_UNIT;
            if s.positions[u].baseAssetAmount > 0 then Traded(s, s', u, value, 0 - moved)
            else Traded(s, s', u, 0 - value - 1, moved)
  {
    var p, a, s' := s.positions[u], s.market.amm, ShutStep(s, u, collateral, now).value;
    CloseShape(collateral, s.market, p, now);
    SwapBaseShape(a, Abs(p.baseAssetAmount), SwapDirectionToClose(p.baseAssetAmount), now);
    ValueShape(p.baseAssetAmount, p.quoteAssetAmount, a);
    moved := if p.baseAssetAmount > 0 then a.quoteAssetReserve - s'.market.amm.quoteAssetReserve
             else s'.market.amm.quoteAssetReserve - a.quoteAssetReserve;
  }

  lemma ShutConserves(s: Crowd, u: nat, collateral: u128, now: i64)
    requires Orderly(s) && u < |s.positions| && ShutStep(s, u, collateral, now).Ok?
    ensures Conserves(s, ShutStep(s, u, collateral, now).value)
  {
    var peg, s', long := s.market.amm.pegMultiplier, ShutStep(s, u, collateral, now).value, s.positions[u].baseAssetAmount > 0;
    var moved := ShutTrades(s, u, collateral, now);
    var value := moved * peg / QUOTE_UNIT;
    CountedDust(s.dust, false, peg);
    ShutMoves(moved, peg, long);
    if long {
      MovesConserve(s, s', u, value, 0 - moved, 0, 1);
    } else {
      MovesConserve(s, s', u, 0 - value - 1, moved, 0, 1);
    }
  }

  lemma {:induction false} RunConserves(s: Crowd, moves: seq<Move>)
    requires Orderly(s) && CrowdRun(s, moves).Ok?
    ensures Conserves(s, CrowdRun(s, moves).value)
  {
    if moves != [] {
      var rest, last := moves[..|moves| - 1], moves[|moves| - 1];
      RunConserves(s, rest);
      var before := CrowdRun(s, rest).value;
      match last
      case Grow(u, side, quote, now) => GrowConserves(before, u, side, quote, now);
      case Shrink(u, quote, collateral, now, mark) => ShrinkConserves(before, u, quote, collateral, now, mark);
      case Shut(u, collateral, now) => ShutConserves(before, u, collateral, now);
    }
  }

  // ----- From flat to flat

  lemma RootIsAlone(s: nat, q: nat)
    requires 0 < s && s * q <= s * s < s * q + q
    ensures q == s
  {
    assert (s - 1) * s == s * s - s;
    assert (s + 1) * s == s * s + s;
    if q < s {
      MulMono(q, s - 1, s);
    } else if s < q {
      MulMono(s + 1, q, s);
    }
  }

  lemma FlooredRootIsAlone(s: nat, q: nat, k: nat)
    requires 0 < s && k == s * s
    ensures 0 < q && k / q == s ==> q == s
    ensures k / s == s
  {
    FloorUnique(k, s, s);
    if 0 < q && k / q == s {
      FloorBounds(k, q);
      RootIsAlone(s, q);
    }
  }

  /** A tight curve with its base reserve at the root has its quote reserve there too. */
  lemma AtRoot(a: Amm)
    requires TightCurve(a) && a.baseAssetReserve == a.sqrtK && 0 < a.sqrtK
    ensures a.quoteAssetReserve == a.sqrtK
  {
    FlooredRootIsAlone(a.sqrtK, a.quoteAssetReserve, a.sqrtK * a.sqrtK);
  }

  /** A market is zero-sum. From a flat market at its root, over any interleaving of any users' trades
      that ends flat, all that users realise together, before fees and clamps, is at most one slack for
      each trade whose rounding can favour them and what openings bought without acquiring anything; and
      they lose together at most one slack and one unit for each other trade, and what openings sold. */
  lemma MarketIsZeroSum(s: Crowd, moves: seq<Move>)
    requires Orderly(s) && Flat(s.positions) && s.realised == 0 && s.dust == Dust(0, 0, 0, 0)
    requires s.market.amm.baseAssetReserve == s.market.amm.sqrtK && 0 < s.market.amm.sqrtK
    requires CrowdRun(s, moves).Ok? && Flat(CrowdRun(s, moves).value.positions)
    ensures var s', peg := CrowdRun(s, moves).value, s.market.amm.pegMultiplier;
            0 - Taken(s'.dust, peg) <= s'.realised <= Given(s'.dust, peg)
  {
    var s' := CrowdRun(s, moves).value;
    RunConserves(s, moves);
    FlatSums(s.positions);
    FlatSums(s'.positions);
    AtRoot(s.market.amm);
    AtRoot(s'.market.amm);
  }
}
