/** The constant-product curve: quote and reserve units, swaps, prices, and the invariant that
    keeps the two reserves tied to each other although every swap rounds. */
module Curve {
  import opened Numeric
  import opened State

  /** Reserve units times the peg that make one quote unit. */
  const QUOTE_UNIT := AMM_TIMES_PEG_TO_QUOTE_PRECISION_RATIO

  // ----- Quote units and reserve units

  function ReserveToAsset(reserve: u128, peg: u128): Result<u128> {
    var product :- FitU128(reserve * peg);
    Ok(product / QUOTE_UNIT)
  }

  /** Dividing by a zero peg panics in the program, which fails the transaction as well. */
  function AssetToReserve(quote: u128, peg: u128): Result<u128> {
    var product :- FitU128(quote * QUOTE_UNIT);
    DivU(product, peg)
  }

  // ----- Swaps

  /** The new output reserve and the new input reserve. */
  function SwapOutput(amount: u128, input: u128, direction: SwapDirection, sqrtK: u128): Result<(u128, u128)> {
    var invariantK :- FitU192(sqrtK * sqrtK);
    var newInput :- FitU128(if direction.Add? then input + amount else input - amount);
    var quotient :- DivU(invariantK, newInput);
    var newOutput :- NarrowU128(quotient);
    Ok((newOutput, newInput))
  }

  function QuoteSwapped(before: u128, after: u128, direction: SwapDirection, peg: u128): Result<u128> {
    var change :- FitU128(if direction.Add? then before - after else after - before);
    ReserveToAsset(change, peg)
  }

  // ----- Prices

  function CalculatePrice(quote: u128, base: u128, peg: u128): Result<u128> {
    var pegged :- FitU128(quote * peg);
    var scaled :- FitU192(pegged * PRICE_TO_PEG_PRECISION_RATIO);
    var price :- DivU(scaled, base);
    NarrowU128(price)
  }

  function MarkPrice(a: Amm): Result<u128> {
    CalculatePrice(a.quoteAssetReserve, a.baseAssetReserve, a.pegMultiplier)
  }

  /** The price the market would have if the net position of all users were closed. */
  function TerminalPrice(m: Market): Result<u128> {
    var direction := if m.baseAssetAmount > 0 then Add else Remove;
    var net :- FitU128(Abs(m.baseAssetAmount));
    var (quote, base) :- SwapOutput(net, m.amm.baseAssetReserve, direction, m.amm.sqrtK);
    CalculatePrice(quote, base, m.amm.pegMultiplier)
  }

  // ----- The curve invariant

  /** One reserve is the floor of k over the other. Which one is the derived one depends on
      which side the last swap moved. */
  predicate Tight(base: int, quote: int, sqrtK: int) {
    || (0 < quote && base == sqrtK * sqrtK / quote)
    || (0 < base && quote == sqrtK * sqrtK / base)
  }

  predicate TightCurve(a: Amm) {
    Tight(a.baseAssetReserve, a.quoteAssetReserve, a.sqrtK)
  }

  /** The product never exceeds k, and misses it by less than the larger reserve. */
  lemma TightBounds(base: nat, quote: nat, sqrtK: nat)
    requires Tight(base, quote, sqrtK)
    ensures base * quote <= sqrtK * sqrtK
    ensures sqrtK * sqrtK - base * quote < Max(base, quote)
  {
    var k := sqrtK * sqrtK;
    if 0 < quote && base == k / quote {
      FloorBounds(k, quote);
    } else {
      FloorBounds(k, base);
      assert quote * base == base * quote;
    }
  }

  /** Adding n >= 1 to one reserve of a tight curve never raises the other one. */
  lemma AddLowersOutput(input: nat, output: nat, sqrtK: nat, n: nat)
    requires Tight(input, output, sqrtK) && 1 <= n
    ensures sqrtK * sqrtK / (input + n) <= output
  {
    var k := sqrtK * sqrtK;
    if 0 < output && input == k / output {
      FloorBounds(k, output);
      assert k < (input + 1) * output;
      MulMono(input + 1, input + n, output);
      FloorAtLeast(k, input + n, output + 1);
      assert (output + 1) * (input + n) >= (input + n) * output;
    } else {
      FloorAntitone(k, input, input + n);
    }
  }

  /** Removing n from one reserve of a tight curve, short of emptying it, never lowers the other. */
  lemma RemoveRaisesOutput(input: nat, output: nat, sqrtK: nat, n: nat)
    requires Tight(input, output, sqrtK) && n < input
    ensures output <= sqrtK * sqrtK / (input - n)
  {
    TightBounds(input, output, sqrtK);
    MulMono(input - n, input, output);
    FloorAtLeast(sqrtK * sqrtK, input - n, output);
  }

  lemma TightSymmetric(x: int, y: int, sqrtK: int)
    ensures Tight(x, y, sqrtK) == Tight(y, x, sqrtK)
  {
  }

  /** What a successful swap did: moved its input reserve by the amount and re-derived the other. */
  lemma SwapShape(amount: u128, input: u128, direction: SwapDirection, sqrtK: u128)
    requires SwapOutput(amount, input, direction, sqrtK).Ok?
    ensures var (output, newInput) := SwapOutput(amount, input, direction, sqrtK).value;
            && newInput == (if direction.Add? then input + amount else input - amount)
            && 0 < newInput
            && output == sqrtK * sqrtK / newInput
            && Tight(newInput, output, sqrtK)
  {
  }
}
